/** scripts/event/PiratePQ.js: stages under a timer, and a roster that players leave one
    by one until the event ends.

    Host facts used: a warp of a registered player calls changedMap before the player
    moves, only registered players report to the event or stand on its maps, and the
    event's leader is the party's and hands over before a disconnection is reported. */
module PiratePQ {
  import opened Basics
  import opened Events
  import Stages

  const MIN_PLAYERS := 3
  const MIN_MAP := 925100000
  const MAX_MAP := 925100500
  const EXIT_MAP := 925100700
  const CLEAR_MAP := 925100600
  const MINUTE := 60000

  /** Stage k + 1 of the script is stage k of the quest. */
  const QUEST := Stages.Quest(
    [925100100, 925100200, 925100300, 925100400, 925100500],
    [4 * MINUTE, 6 * MINUTE, 6 * MINUTE, 6 * MINUTE, 6 * MINUTE, 8 * MINUTE])

  datatype Pirate = Pirate(inst: Instance, curStage: int)

  predicate Inside(mapid: int) {
    MIN_MAP <= mapid <= MAX_MAP
  }

  // ----- what each handler does -----

  ghost function MovedInside(s: Pirate, mapid: int, now: int): Pirate {
    if 1 <= s.curStage <= 5 && mapid == QUEST.gates[s.curStage - 1]
    then Pirate(Restarted(s.inst, now + QUEST.times[s.curStage]), s.curStage + 1)
    else s
  }

  ghost function Disconnected(v: Instance, p: Player): Instance {
    if TeamLacks(v, true, MIN_PLAYERS, p) then Ended(v, EXIT_MAP) else Exited(v, p, EXIT_MAP)
  }

  /** The host's side of disconnecting: first the lead is passed on. */
  ghost function LoggedOff(v: Instance, p: Player, beside: seq<Companion>): Instance {
    Disconnected(HandedOver(v, p, beside), p)
  }

  ghost function LeftTheParty(v: Instance, p: Player): Instance {
    if TeamLacks(v, false, MIN_PLAYERS, p) then Ended(v, EXIT_MAP)
    else if v.cleared then v
    else Exited(v, p, EXIT_MAP)
  }

  ghost function Disbanded(v: Instance): Instance {
    if v.cleared then v else Ended(v, EXIT_MAP)
  }

  /** A leader outside the event ends it; the host records the new leader either way. */
  ghost function LedBy(v: Instance, p: Player, mapid: int): Instance {
    (if !v.cleared && !Inside(mapid) then Ended(v, EXIT_MAP) else v).(leader := p)
  }

  /** The host's side of leaving: a leader takes the whole party apart. */
  ghost function PartyLeft(v: Instance, p: Player): Instance {
    if p == v.leader then Disbanded(v) else LeftTheParty(v, p)
  }

  /** Clearing warps everyone out of the event maps, and every such warp reports back. */
  ghost function Settled(v: Instance): Instance {
    v.(roster := [], gone := v.gone + v.roster, warps := v.warps + Everyone(v.roster, CLEAR_MAP),
       cleared := true, deadline := None, disposals := v.disposals + if v.roster == [] then 0 else 1)
  }

  /** The state of clearPQ after i members have been warped. */
  ghost function PartlySettled(v: Instance, party: seq<Player>, i: nat): Instance
    requires i <= |party|
  {
    v.(roster := party[i..], gone := v.gone + party[..i], warps := v.warps + Everyone(party[..i], CLEAR_MAP),
       disposals := v.disposals + if i == |party| && i > 0 then 1 else 0)
  }

  lemma SettleNext(v: Instance, party: seq<Player>, i: nat)
    requires i < |party| && v.cleared && v.deadline == None
    ensures var u := Dropped(PartlySettled(v, party, i), party[i], MIN_PLAYERS, EXIT_MAP);
            u.(warps := u.warps + [(party[i], CLEAR_MAP)]) == PartlySettled(v, party, i + 1)
    ensures Distinct(party) ==> Distinct(party[i..]) && party[i] in party[i..]
  {
    assert party[i..][0] == party[i];
    WithoutHead(party[i..]);
    assert party[i..][1..] == party[i + 1..];
    assert v.gone + party[..i] + [party[i]] == v.gone + party[..i + 1];
    ExtendEveryone(v.warps, party, i, CLEAR_MAP);
    var w := v.warps + Everyone(party[..i], CLEAR_MAP);
    assert w + Everyone([], EXIT_MAP) == w;
  }

  class PirateEvent {
    const eim: EventInstance
    var curStage: int

    ghost function View(): Pirate
      reads this, eim
    {
      Pirate(eim.View(), curStage)
    }

    constructor (team: seq<Player>, leader: Player, now: int)
      ensures View() == Begun(team, leader, now)
      ensures fresh(eim)
    {
      eim := new EventInstance(team, leader);
      curStage := 1;
      new;
      eim.StartEventTimer(now, 4 * MINUTE);
    }

    method ChangedMapInside(mapid: int, now: int)
      modifies this, eim
      ensures View() == MovedInside(old(View()), mapid, now)
    {
      var stage := curStage;
      if stage == 1 {
        if mapid == 925100100 {
          eim.RestartEventTimer(now, 6 * 60 * 1000);
          curStage := 2;
        }
      } else if stage == 2 {
        if mapid == 925100200 {
          eim.RestartEventTimer(now, 6 * 60 * 1000);
          curStage := 3;
        }
      } else if stage == 3 {
        if mapid == 925100300 {
          eim.RestartEventTimer(now, 6 * 60 * 1000);
          curStage := 4;
        }
      } else if stage == 4 {
        if mapid == 925100400 {
          eim.RestartEventTimer(now, 6 * 60 * 1000);
          curStage := 5;
        }
      } else if stage == 5 {
        if mapid == 925100500 {
          eim.RestartEventTimer(now, 8 * 60 * 1000);
          curStage := 6;
        }
      }
    }

    method ChangedMap(p: Player, mapid: int, now: int)
      requires Distinct(eim.roster) && p in eim.roster
      modifies this, eim
      ensures View() == if Inside(mapid) then MovedInside(old(View()), mapid, now)
                        else old(View()).(inst := Dropped(old(View()).inst, p, MIN_PLAYERS, EXIT_MAP))
    {
      if mapid < MIN_MAP || mapid > MAX_MAP {
        eim.Drop(p, MIN_PLAYERS, EXIT_MAP);
      } else {
        ChangedMapInside(mapid, now);
      }
    }

    method PlayerRevive(p: Player)
      requires Distinct(eim.roster) && p in eim.roster
      modifies eim
      ensures View() == old(View()).(inst := Dropped(old(View()).inst, p, MIN_PLAYERS, EXIT_MAP))
    {
      eim.Drop(p, MIN_PLAYERS, EXIT_MAP);
    }

    method PlayerDisconnected(p: Player)
      requires Distinct(eim.roster)
      modifies eim
      ensures View() == old(View()).(inst := Disconnected(old(View()).inst, p))
    {
      if eim.IsEventTeamLackingNow(true, MIN_PLAYERS, p) {
        eim.End(EXIT_MAP);
      } else {
        eim.PlayerExit(p, EXIT_MAP);
      }
    }

    method LeftParty(p: Player)
      requires Distinct(eim.roster)
      modifies eim
      ensures View() == old(View()).(inst := LeftTheParty(old(View()).inst, p))
    {
      if eim.IsEventTeamLackingNow(false, MIN_PLAYERS, p) {
        eim.End(EXIT_MAP);
      } else if !eim.cleared {
        eim.PlayerExit(p, EXIT_MAP);
      }
    }

    method DisbandParty()
      requires Distinct(eim.roster)
      modifies eim
      ensures View() == old(View()).(inst := Disbanded(old(View()).inst))
    {
      if !eim.cleared {
        eim.End(EXIT_MAP);
      }
    }

    /** MapleParty.leaveParty of the host: the event's leader is the party's. */
    method LeaveParty(p: Player)
      requires Distinct(eim.roster)
      modifies eim
      ensures View() == old(View()).(inst := PartyLeft(old(View()).inst, p))
    {
      if p == eim.leader {
        DisbandParty();
      } else {
        LeftParty(p);
      }
    }

    method ChangedLeader(p: Player, mapid: int)
      requires Distinct(eim.roster)
      modifies eim
      ensures View() == old(View()).(inst := LedBy(old(View()).inst, p, mapid))
    {
      if !eim.cleared && (mapid < MIN_MAP || mapid > MAX_MAP) {
        eim.End(EXIT_MAP);
      }
      eim.leader := p;
    }

    /** MapleClient.removePlayer of the host, for a member on a map of the event. */
    method RemovePlayer(p: Player, mapid: int, beside: seq<Companion>)
      requires Distinct(eim.roster) && Inside(mapid)
      modifies eim
      ensures View() == old(View()).(inst := LoggedOff(old(View()).inst, p, beside))
    {
      if p == eim.leader {
        var heir := FindHeir(p, beside);
        if heir.Some? {
          ChangedLeader(heir.value.id, mapid);
        }
      }
      PlayerDisconnected(p);
    }

    /** stopEventTimer, setEventCleared, then warpEventTeam over a snapshot of the roster. */
    method ClearPQ(now: int)
      requires Distinct(eim.roster)
      modifies this, eim
      ensures View() == old(View()).(inst := Settled(old(View()).inst))
    {
      eim.StopEventTimer();
      eim.cleared := true;
      var party := eim.roster;
      ghost var v := eim.View();
      for i := 0 to |party|
        invariant curStage == old(curStage) && eim.View() == PartlySettled(v, party, i)
      {
        SettleNext(v, party, i);
        ChangedMap(party[i], CLEAR_MAP, now);
        eim.warps := eim.warps + [(party[i], CLEAR_MAP)];
      }
      assert party[..|party|] == party;
    }
  }

  ghost function Begun(team: seq<Player>, leader: Player, now: int): Pirate {
    Pirate(Instance(team, [], [], leader, false, 0, Some(now + 4 * MINUTE), 0), 1)
  }

  // ----- whole runs -----

  datatype Step =
    | Moved(p: Player, mapid: int)
    | Revived(p: Player)
    | LoggedOut(p: Player, beside: seq<Companion>)
    | LeftIt(p: Player)
    | NewLeader(leader: Player, mapid: int)
    | Timeout
    | Clear
  {
    ghost predicate By(v: Instance) {
      match this
      case Moved(p, _) => p in v.roster
      case Revived(p) => p in v.roster
      case LoggedOut(p, beside) => p in v.roster && forall c :: c in beside ==> c.id in v.roster
      case LeftIt(p) => p in v.roster
      case NewLeader(p, mapid) => Inside(mapid) ==> p in v.roster
      case _ => true
    }
  }

  datatype Action = Action(now: int, step: Step)

  ghost function Do(s: Pirate, a: Action): Pirate {
    match a.step
    case Moved(p, mapid) =>
      if Inside(mapid) then MovedInside(s, mapid, a.now) else s.(inst := Dropped(s.inst, p, MIN_PLAYERS, EXIT_MAP))
    case Revived(p) => s.(inst := Dropped(s.inst, p, MIN_PLAYERS, EXIT_MAP))
    case LoggedOut(p, beside) => s.(inst := LoggedOff(s.inst, p, beside))
    case LeftIt(p) => s.(inst := PartyLeft(s.inst, p))
    case NewLeader(p, mapid) => s.(inst := LedBy(s.inst, p, mapid))
    case Timeout => s.(inst := Ended(s.inst, EXIT_MAP))
    case Clear => s.(inst := Settled(s.inst))
  }

  /** Nothing reaches a disposed event, only members report or stand on its maps, and the
      timer is never overrun. */
  ghost predicate Legal(s: Pirate, a: Action) {
    && !s.inst.Disposed()
    && a.step.By(s.inst)
    && (s.inst.deadline.Some? ==> a.now <= s.inst.deadline.value)
    && (a.step.Timeout? ==> s.inst.deadline == Some(a.now))
  }

  ghost function Play(s: Pirate, actions: seq<Action>): Pirate {
    if actions == [] then s else Do(Play(s, actions[..|actions| - 1]), actions[|actions| - 1])
  }

  ghost predicate LegalRun(s: Pirate, actions: seq<Action>) {
    actions == [] ||
    (LegalRun(s, actions[..|actions| - 1]) && Legal(Play(s, actions[..|actions| - 1]), actions[|actions| - 1]))
  }

  /** The event runs uncleared, with its leader and a full enough team under a timer, or it
      has been disposed of once with every member unregistered once and warped at most once. */
  ghost predicate Orderly(team: seq<Player>, v: Instance) {
    Sound(team, 3, v) && (!v.Disposed() ==> !v.cleared && v.leader in v.roster)
  }

  lemma SettlingIsOrderly(team: seq<Player>, v: Instance)
    requires Orderly(team, v) && !v.Disposed()
    ensures Orderly(team, Settled(v))
  {
    PlayersOfEveryone(v, CLEAR_MAP);
  }

  lemma DroppingIsOrderly(team: seq<Player>, v: Instance, p: Player)
    requires Orderly(team, v) && !v.Disposed() && p in v.roster
    ensures Orderly(team, Dropped(v, p, MIN_PLAYERS, EXIT_MAP))
  {
    DroppingIsSound(team, MIN_PLAYERS, v, p, EXIT_MAP);
    if p != v.leader { WithoutKeeps(v.roster, p, v.leader); }
  }

  lemma HandingOverIsOrderly(team: seq<Player>, v: Instance, p: Player, beside: seq<Companion>)
    requires Orderly(team, v) && forall c :: c in beside ==> c.id in v.roster
    ensures Orderly(team, HandedOver(v, p, beside))
  {
    HeirIsHighest(p, beside);
  }

  /** Also for a member who disconnects or leaves the party, who is warped out. */
  lemma EvictingIsOrderly(team: seq<Player>, v: Instance, p: Player)
    requires Orderly(team, v) && !v.Disposed() && p in v.roster
    ensures Orderly(team, Disconnected(v, p)) && Orderly(team, PartyLeft(v, p))
  {
    UnregisteringConserves(team, v, p, EXIT_MAP);
    EndingIsSound(team, MIN_PLAYERS, v, EXIT_MAP);
    if p != v.leader { WithoutKeeps(v.roster, p, v.leader); }
  }

  lemma EndingIsOrderly(team: seq<Player>, v: Instance)
    requires Orderly(team, v) && !v.Disposed()
    ensures Orderly(team, Ended(v, EXIT_MAP))
  {
    EndingIsSound(team, MIN_PLAYERS, v, EXIT_MAP);
  }

  lemma LeadingIsOrderly(team: seq<Player>, v: Instance, p: Player, mapid: int)
    requires Orderly(team, v) && !v.Disposed() && (Inside(mapid) ==> p in v.roster)
    ensures Orderly(team, LedBy(v, p, mapid))
  {
    EndingIsOrderly(team, v);
  }

  lemma StepIsOrderly(team: seq<Player>, s: Pirate, a: Action)
    requires Orderly(team, s.inst) && Legal(s, a)
    ensures Orderly(team, Do(s, a).inst)
  {
    match a.step
    case Moved(p, mapid) => if !Inside(mapid) { DroppingIsOrderly(team, s.inst, p); }
    case Revived(p) => DroppingIsOrderly(team, s.inst, p);
    case LoggedOut(p, beside) =>
      HandingOverIsOrderly(team, s.inst, p, beside);
      EvictingIsOrderly(team, HandedOver(s.inst, p, beside), p);
    case LeftIt(p) => EvictingIsOrderly(team, s.inst, p);
    case Clear => SettlingIsOrderly(team, s.inst);
    case NewLeader(p, mapid) => LeadingIsOrderly(team, s.inst, p, mapid);
    case Timeout => EndingIsOrderly(team, s.inst);
  }

  /** Safety over every run: a led team of at least three or a single, complete eviction. */
  lemma {:induction false} EveryRunIsOrderly(team: seq<Player>, leader: Player, start: int, actions: seq<Action>)
    requires Distinct(team) && |team| >= MIN_PLAYERS && leader in team
    requires LegalRun(Begun(team, leader, start), actions)
    ensures Orderly(team, Play(Begun(team, leader, start), actions).inst)
  {
    if actions == [] {
      assert Players([]) == [];
    } else {
      var init := actions[..|actions| - 1];
      EveryRunIsOrderly(team, leader, start, init);
      StepIsOrderly(team, Play(Begun(team, leader, start), init), actions[|actions| - 1]);
    }
  }

  /** A map change inside the event. */
  ghost predicate IsVisit(step: Step) {
    step.Moved? && 925100000 <= step.mapid <= 925100500
  }

  /** The four ways out: walking off the event's maps, dying, disconnecting, and leaving the
      party or being expelled from it. */
  ghost predicate Quits(step: Step, p: Player) {
    || step == LeftIt(p) || (step.LoggedOut? && step.p == p) || step == Revived(p)
    || (step.Moved? && step.p == p && !IsVisit(step))
  }

  /** The one way in which a leader can go without ending the event. */
  ghost predicate HandsOver(step: Step) {
    step.LoggedOut? && Accompanied(step.p, step.beside)
  }

  /** Whichever way a member quits, the event survives exactly if the rest is still a team and
      the quitter is not the leader, or disconnects beside another member, who then leads; the
      quitter is out in any case. */
  lemma QuitterEndsTheEventIff(s: Pirate, a: Action, p: Player)
    requires Legal(s, a) && !s.inst.cleared && Distinct(s.inst.roster) && Quits(a.step, p)
    ensures var v := Do(s, a).inst;
            && (v.Disposed() <==> |s.inst.roster| <= 3 || (p == s.inst.leader && !HandsOver(a.step)))
            && p !in v.roster
            && (!v.Disposed() ==>
                  && v.roster == Without(s.inst.roster, p) && |v.roster| == |s.inst.roster| - 1
                  && v.leader == if p == s.inst.leader then Heir(p, a.step.beside).value.id else s.inst.leader)
  {
    WithoutRemovesOne(s.inst.roster, p);
    if a.step.LoggedOut? {
      HeirIsHighest(p, a.step.beside);
    }
  }

  ghost predicate SentOut(v: Instance, w: Instance, p: Player, warped: bool) {
    if !w.Disposed() then w.gone == v.gone + [p] && w.warps == v.warps + if warped then [(p, 925100700)] else []
    else if warped then Evicted(v, w, v.roster, 925100700)
    else Evicted(v.(gone := v.gone + [p]), w, Without(v.roster, p), 925100700)
  }

  /** Those who disconnect or leave the party are warped to the exit, as is everybody else if
      the event ends; those who have walked off or died are where they are. */
  lemma QuittersAreSentOut(s: Pirate, a: Action, p: Player)
    requires Legal(s, a) && !s.inst.cleared && Quits(a.step, p)
    ensures SentOut(s.inst, Do(s, a).inst, p, a.step.LeftIt? || a.step.LoggedOut?)
  {
    match a.step
    case LoggedOut(_, beside) => DisconnectedAreSentOut(s.inst, p, beside);
    case LeftIt(_) => LeaversAreSentOut(s.inst, p);
    case _ => DroppedAreWhereTheyAre(s.inst, p);
  }

  lemma DroppedAreWhereTheyAre(v: Instance, p: Player)
    requires !v.Disposed()
    ensures SentOut(v, Dropped(v, p, MIN_PLAYERS, EXIT_MAP), p, false)
  {
    DroppedEvicts(v, p, MIN_PLAYERS, EXIT_MAP);
  }

  lemma DisconnectedAreSentOut(v: Instance, p: Player, beside: seq<Companion>)
    requires !v.Disposed() && !v.cleared
    ensures SentOut(v, LoggedOff(v, p, beside), p, true)
  {
    EndedEvicts(HandedOver(v, p, beside), EXIT_MAP);
  }

  lemma LeaversAreSentOut(v: Instance, p: Player)
    requires !v.Disposed() && !v.cleared
    ensures SentOut(v, PartyLeft(v, p), p, true)
  {
    EndedEvicts(v, EXIT_MAP);
  }

  /** What else can happen: inside the event nobody gets lost, and time running out, a leader
      from outside and clearing send everybody out, the last to another map. */
  lemma WholeTeamStepsInFull(s: Pirate, a: Action)
    requires Legal(s, a) && !s.inst.cleared && s.inst.roster != []
    ensures var v, w := s.inst, Do(s, a).inst;
            && (IsVisit(a.step) ==> w == v.(deadline := w.deadline, restarts := w.restarts))
            && (a.step.Timeout? ==> Evicted(v, w, v.roster, 925100700))
            && (a.step.Clear? ==> w.cleared && Evicted(v, w, v.roster, 925100600))
            && (a.step.NewLeader? ==>
                  && w.leader == a.step.leader
                  && if 925100000 <= a.step.mapid <= 925100500 then w == v.(leader := w.leader)
                     else Evicted(v, w, v.roster, 925100700))
  {
    EndedEvicts(s.inst, EXIT_MAP);
  }

  /** The visits to event maps, by whichever players. */
  ghost function Visits(actions: seq<Action>): seq<Stages.Visit> {
    if actions == [] then []
    else
      var a := actions[|actions| - 1];
      Visits(actions[..|actions| - 1])
      + if IsVisit(a.step) then [Stages.Visit(a.step.mapid, a.now)] else []
  }

  /** One map change is one visit; nothing else touches the stage or a running timer. */
  lemma StepFollowsVisit(s: Pirate, a: Action, p: Stages.Progress)
    requires Legal(s, a) && s.curStage == p.passed + 1 && p.passed <= 5
    requires !Do(s, a).inst.Disposed() && s.inst.deadline == Some(p.deadline)
    ensures var q := if IsVisit(a.step)
                     then Stages.Entered(QUEST, p, Stages.Visit(a.step.mapid, a.now)) else p;
            && Do(s, a).curStage == q.passed + 1
            && (Do(s, a).inst.cleared || Do(s, a).inst.deadline == Some(q.deadline))
            && Do(s, a).inst.restarts - s.inst.restarts == q.passed - p.passed
  {
  }

  lemma StageIgnoresEnding(s: Pirate, a: Action)
    requires Do(s, a).inst.Disposed() && !s.inst.Disposed()
    ensures Do(s, a).curStage == s.curStage && Do(s, a).inst.restarts == s.inst.restarts
    ensures !(IsVisit(a.step))
  {
  }

  lemma {:induction false} StageFollowsVisits(team: seq<Player>, leader: Player, start: int, actions: seq<Action>)
    requires LegalRun(Begun(team, leader, start), actions)
    requires Distinct(team) && |team| >= MIN_PLAYERS && leader in team
    ensures var s := Play(Begun(team, leader, start), actions);
            var p := Stages.Run(QUEST, start, Visits(actions));
            && Stages.Timely(QUEST, start, Visits(actions))
            && s.curStage == p.passed + 1
            && s.inst.restarts == p.passed
            && (!s.inst.Disposed() ==> s.inst.deadline == Some(p.deadline))
  {
    if actions != [] {
      var init, a := actions[..|actions| - 1], actions[|actions| - 1];
      var b := Begun(team, leader, start);
      var s, p := Play(b, init), Stages.Run(QUEST, start, Visits(init));
      StageFollowsVisits(team, leader, start, init);
      EveryRunIsOrderly(team, leader, start, init);
      EveryRunIsOrderly(team, leader, start, actions);
      if Do(s, a).inst.Disposed() {
        StageIgnoresEnding(s, a);
      } else {
        StepFollowsVisit(s, a, p);
      }
      if IsVisit(a.step) {
        Stages.RunNext(QUEST, start, Visits(init), Stages.Visit(a.step.mapid, a.now));
      } else {
        assert Visits(actions) == Visits(init);
      }
    }
  }

  /** Four minutes at the start, six behind each of the first four gates, eight at the end. */
  function StageTime(curStage: int): int {
    if curStage == 1 then 240000 else if curStage <= 5 then 360000 else 480000
  }

  lemma GatesOpenInOrder(start: int, visits: seq<Stages.Visit>, k: nat, gates: seq<int>)
    requires gates == [925100100, 925100200, 925100300, 925100400, 925100500] && k <= 5
    ensures Stages.Run(QUEST, start, visits).passed <= 5
    ensures k <= Stages.Run(QUEST, start, visits).passed <==> Stages.IsSubsequence(gates[..k], visits)
  {
    Stages.StageIsLongestGatePrefix(QUEST, start, visits, k);
  }

  lemma TimerIsTheStages(start: int, visits: seq<Stages.Visit>)
    ensures var p := Stages.Run(QUEST, start, visits);
            p.deadline == Stages.OpenedAt(QUEST, start, visits) + StageTime(p.passed + 1)
  {
    Stages.TimerRunsFromTheGate(QUEST, start, visits);
  }

  lemma TimerIsInTime(start: int, visits: seq<Stages.Visit>, total: int)
    requires Stages.Timely(QUEST, start, visits) && total == Stages.Sum(QUEST.times)
    ensures Stages.Run(QUEST, start, visits).deadline <= start + total
  {
    Stages.RunsOutInTime(QUEST, start, visits);
  }

  /** While the event runs, its timer runs from the moment the gate of its stage was opened,
      with the time of that stage, and out within 36 minutes of the start. */
  ghost predicate OnTime(s: Pirate, start: int, visits: seq<Stages.Visit>) {
    !s.inst.Disposed() ==>
      && s.inst.deadline == Some(Stages.OpenedAt(QUEST, start, visits) + StageTime(s.curStage))
      && s.inst.deadline.value <= start + 2160000
  }

  /** What follows for a state whose stage, restarts and timer are those of the visits. */
  lemma StageIsOnTime(s: Pirate, start: int, visits: seq<Stages.Visit>)
    requires Stages.Timely(QUEST, start, visits)
    requires s.curStage == s.inst.restarts + 1 == Stages.Run(QUEST, start, visits).passed + 1
    requires !s.inst.Disposed() ==> s.inst.deadline == Some(Stages.Run(QUEST, start, visits).deadline)
    ensures OnTime(s, start, visits)
  {
    TimerIsTheStages(start, visits);
    QuestTakes36Minutes();
    TimerIsInTime(start, visits, 2160000);
  }

  /** curStage counts the gates passed in order by anybody, each of which has restarted the
      timer once. */
  lemma StageCountsGates(team: seq<Player>, leader: Player, start: int, actions: seq<Action>, k: nat, gates: seq<int>)
    requires LegalRun(Begun(team, leader, start), actions)
    requires Distinct(team) && |team| >= MIN_PLAYERS && leader in team
    requires gates == [925100100, 925100200, 925100300, 925100400, 925100500] && k <= 5
    ensures var s := Play(Begun(team, leader, start), actions);
            && 1 <= s.curStage <= 6 && s.inst.restarts == s.curStage - 1
            && (k + 1 <= s.curStage <==> Stages.IsSubsequence(gates[..k], Visits(actions)))
  {
    StageFollowsVisits(team, leader, start, actions);
    GatesOpenInOrder(start, Visits(actions), k, gates);
  }

  lemma StepIsOnTime(s: Pirate, a: Action, start: int, visits: seq<Stages.Visit>)
    requires Legal(s, a) && OnTime(s, start, visits)
    ensures a.now <= start + 2160000
  {
  }

  ghost predicate InTime(s: Pirate, start: int, actions: seq<Action>) {
    && OnTime(Play(s, actions), start, Visits(actions))
    && (actions != [] ==> actions[|actions| - 1].now <= start + 2160000)
  }

  /** Each gate grants the time of the stage that it opens, and no run outlasts 36 minutes. */
  lemma StageAndTimeLimit(team: seq<Player>, leader: Player, start: int, actions: seq<Action>, b: Pirate)
    requires b == Begun(team, leader, start) && LegalRun(b, actions)
    requires Distinct(team) && |team| >= MIN_PLAYERS && leader in team
    ensures InTime(b, start, actions)
  {
    StageFollowsVisits(team, leader, start, actions);
    StageIsOnTime(Play(b, actions), start, Visits(actions));
    if actions != [] {
      var init := actions[..|actions| - 1];
      StageFollowsVisits(team, leader, start, init);
      StageIsOnTime(Play(b, init), start, Visits(init));
      StepIsOnTime(Play(b, init), actions[|actions| - 1], start, Visits(init));
    }
  }

  lemma QuestTakes36Minutes()
    ensures Stages.Sum(QUEST.times) == 2160000
  {
    var t := QUEST.times;
    assert t[..6] == t && t[..0] == [];
    Stages.SumNext(t, 0);
    Stages.SumNext(t, 1);
    Stages.SumNext(t, 2);
    Stages.SumNext(t, 3);
    Stages.SumNext(t, 4);
    Stages.SumNext(t, 5);
  }
}
