/** scripts/event/CWKPQ.js: an expedition through stages under a timer, with a roster that
    members leave one by one. */
module CWKPQ {
  import opened Basics
  import opened Events
  import Stages

  const MIN_PLAYERS := 6
  const MIN_MAP := 610030100
  const MAX_MAP := 610030800
  const EXIT_MAP := 610030020
  const MINUTE := 60000

  const QUEST := Stages.Quest(
    [610030200, 610030300, 610030400, 610030500, 610030600, 610030800],
    [2 * MINUTE, 10 * MINUTE, 10 * MINUTE, 10 * MINUTE, 20 * MINUTE, 60 * MINUTE, 1 * MINUTE])

  datatype Cwk = Cwk(inst: Instance, stage: int)

  predicate Inside(mapid: int) {
    MIN_MAP <= mapid <= MAX_MAP
  }

  ghost function Advanced(q: Stages.Quest, s: Cwk, mapid: int, now: int): Cwk
    requires Stages.WellFormed(q)
  {
    if 0 <= s.stage < |q.gates| && mapid == q.gates[s.stage]
    then Cwk(Restarted(s.inst, now + q.times[s.stage + 1]), s.stage + 1)
    else s
  }

  ghost function MovedInside(s: Cwk, mapid: int, now: int): Cwk {
    Advanced(QUEST, s, mapid, now)
  }

  ghost function Quitted(s: Cwk, p: Player): Cwk {
    s.(inst := Dropped(s.inst, p, MIN_PLAYERS, EXIT_MAP))
  }

  /** The host's side of disconnecting: first the lead is passed on. */
  ghost function LoggedOff(s: Cwk, p: Player, beside: seq<Companion>): Cwk {
    Quitted(s.(inst := HandedOver(s.inst, p, beside)), p)
  }

  class CwkEvent {
    const eim: EventInstance
    var currentInstance: int

    ghost function View(): Cwk
      reads this, eim
    {
      Cwk(eim.View(), currentInstance)
    }

    constructor (team: seq<Player>, leader: Player, now: int)
      ensures View() == Begun(team, leader, now)
      ensures fresh(eim)
    {
      eim := new EventInstance(team, leader);
      currentInstance := 0;
      new;
      eim.StartEventTimer(now, 2 * 60000);
    }

    method ChangedMap(p: Player, mapid: int, now: int)
      requires Distinct(eim.roster) && p in eim.roster
      modifies this, eim
      ensures View() == if Inside(mapid) then MovedInside(old(View()), mapid, now) else Quitted(old(View()), p)
    {
      if mapid < MIN_MAP || mapid > MAX_MAP {
        eim.Drop(p, MIN_PLAYERS, EXIT_MAP);
      } else {
        match mapid
        case 610030200 =>
          if currentInstance == 0 {
            eim.RestartEventTimer(now, 600000);
            currentInstance := 1;
          }
        case 610030300 =>
          if currentInstance == 1 {
            eim.RestartEventTimer(now, 600000);
            currentInstance := 2;
          }
        case 610030400 =>
          if currentInstance == 2 {
            eim.RestartEventTimer(now, 600000);
            currentInstance := 3;
          }
        case 610030500 =>
          if currentInstance == 3 {
            eim.RestartEventTimer(now, 1200000);
            currentInstance := 4;
          }
        case 610030600 =>
          if currentInstance == 4 {
            eim.RestartEventTimer(now, 3600000);
            currentInstance := 5;
          }
        case 610030800 =>
          if currentInstance == 5 {
            eim.RestartEventTimer(now, 60000);
            currentInstance := 6;
          }
        case _ =>
      }
    }

    method PlayerRevive(p: Player)
      requires Distinct(eim.roster) && p in eim.roster
      modifies eim
      ensures View() == Quitted(old(View()), p)
    {
      eim.Drop(p, MIN_PLAYERS, EXIT_MAP);
    }

    method PlayerDisconnected(p: Player)
      requires Distinct(eim.roster) && p in eim.roster
      modifies eim
      ensures View() == Quitted(old(View()), p)
    {
      eim.Drop(p, MIN_PLAYERS, EXIT_MAP);
    }

    /** The script's changedLeader is empty; the host records the new leader. */
    method ChangedLeader(p: Player)
      modifies eim
      ensures View() == old(View()).(inst := old(View()).inst.(leader := p))
    {
      eim.leader := p;
    }

    /** MapleClient.removePlayer of the host; a leader who leads no party has nobody beside. */
    method RemovePlayer(p: Player, beside: seq<Companion>)
      requires Distinct(eim.roster) && p in eim.roster
      modifies eim
      ensures View() == LoggedOff(old(View()), p, beside)
    {
      if p == eim.leader {
        var heir := FindHeir(p, beside);
        if heir.Some? {
          ChangedLeader(heir.value.id);
        }
      }
      PlayerDisconnected(p);
    }

    method ScheduledTimeout()
      requires Distinct(eim.roster)
      modifies eim
      ensures View() == old(View()).(inst := Ended(old(View()).inst, EXIT_MAP))
    {
      eim.End(EXIT_MAP);
    }

    method ClearPQ()
      modifies eim
      ensures View() == old(View()).(inst := old(View()).inst.(deadline := None, cleared := true))
    {
      eim.StopEventTimer();
      eim.cleared := true;
    }

    /** Whoever enters starts on the map whose gate was passed last; but at stage 6 on the
        map before the last gate. */
    method PlayerEntry() returns (mapid: int)
      ensures currentInstance == 0 ==> mapid == 610030100
      ensures 1 <= currentInstance <= 5 ==> mapid == QUEST.gates[currentInstance - 1]
      ensures currentInstance == 6 ==> mapid == 610030700
      ensures 610030100 <= mapid <= 610030800 <==> 0 <= currentInstance <= 7
    {
      mapid := 610030100 + currentInstance * 100;
    }
  }

  ghost function Begun(team: seq<Player>, leader: Player, now: int): Cwk {
    Cwk(Instance(team, [], [], leader, false, 0, Some(now + QUEST.times[0]), 0), 0)
  }

  // ----- whole runs -----

  /** Leaving or disbanding the party has empty handlers, and so has a change of leader,
      which the host records. */
  datatype Step =
    | Moved(p: Player, mapid: int)
    | Revived(p: Player)
    | LoggedOut(p: Player, beside: seq<Companion>)
    | LeftParty(p: Player)
    | NewLeader(leader: Player)
    | Timeout
    | Clear
  {
    ghost predicate By(v: Instance) {
      match this
      case Moved(p, _) => p in v.roster
      case Revived(p) => p in v.roster
      case LoggedOut(p, beside) => p in v.roster && forall c :: c in beside ==> c.id in v.roster
      case LeftParty(p) => p in v.roster
      case _ => true
    }
  }

  datatype Action = Action(now: int, step: Step)

  ghost function Do(s: Cwk, a: Action): Cwk {
    match a.step
    case Moved(p, mapid) => if Inside(mapid) then MovedInside(s, mapid, a.now) else Quitted(s, p)
    case Revived(p) => Quitted(s, p)
    case LoggedOut(p, beside) => LoggedOff(s, p, beside)
    case LeftParty(_) => s
    case NewLeader(p) => s.(inst := s.inst.(leader := p))
    case Timeout => s.(inst := Ended(s.inst, EXIT_MAP))
    case Clear => s.(inst := s.inst.(deadline := None, cleared := true))
  }

  /** Nothing reaches a disposed event, only members report, and a running timer is never
      overrun. */
  ghost predicate Legal(s: Cwk, a: Action) {
    && !s.inst.Disposed()
    && a.step.By(s.inst)
    && (s.inst.deadline.Some? ==> a.now <= s.inst.deadline.value)
    && (a.step.Timeout? ==> s.inst.deadline == Some(a.now))
  }

  ghost function Play(s: Cwk, actions: seq<Action>): Cwk {
    if actions == [] then s else Do(Play(s, actions[..|actions| - 1]), actions[|actions| - 1])
  }

  ghost predicate LegalRun(s: Cwk, actions: seq<Action>) {
    actions == [] ||
    (LegalRun(s, actions[..|actions| - 1]) && Legal(Play(s, actions[..|actions| - 1]), actions[|actions| - 1]))
  }

  /** Six members or more under a timer, somebody still in a cleared event, or one complete
      eviction. */
  ghost predicate Safe(team: seq<Player>, s: Cwk) {
    Sound(team, 6, s.inst)
  }

  lemma QuittingIsSafe(team: seq<Player>, s: Cwk, p: Player)
    requires Safe(team, s) && !s.inst.Disposed() && p in s.inst.roster
    ensures Safe(team, Quitted(s, p))
  {
    DroppingIsSound(team, MIN_PLAYERS, s.inst, p, EXIT_MAP);
  }

  lemma StepIsSafe(team: seq<Player>, s: Cwk, a: Action)
    requires Safe(team, s) && Legal(s, a)
    ensures Safe(team, Do(s, a))
  {
    match a.step
    case Moved(p, mapid) => if !Inside(mapid) { QuittingIsSafe(team, s, p); }
    case Revived(p) => QuittingIsSafe(team, s, p);
    case LoggedOut(p, beside) => QuittingIsSafe(team, s.(inst := HandedOver(s.inst, p, beside)), p);
    case Timeout => EndingIsSound(team, MIN_PLAYERS, s.inst, EXIT_MAP);
    case _ =>
  }

  /** Safety over every run, however members come to leave. */
  lemma {:induction false} EveryRunIsSafe(team: seq<Player>, leader: Player, start: int, actions: seq<Action>)
    requires Distinct(team) && |team| >= MIN_PLAYERS
    requires LegalRun(Begun(team, leader, start), actions)
    ensures Safe(team, Play(Begun(team, leader, start), actions))
  {
    if actions == [] {
      assert Players([]) == [];
    } else {
      var init := actions[..|actions| - 1];
      EveryRunIsSafe(team, leader, start, init);
      StepIsSafe(team, Play(Begun(team, leader, start), init), actions[|actions| - 1]);
    }
  }

  /** A map change inside the event. */
  ghost predicate IsVisit(step: Step) {
    step.Moved? && 610030100 <= step.mapid <= 610030800
  }

  ghost predicate Quits(step: Step, p: Player) {
    (step.LoggedOut? && step.p == p) || step == Revived(p) || (step.Moved? && step.p == p && !IsVisit(step))
  }

  /** The one way in which a leader can go without ending the expedition. */
  ghost predicate HandsOver(step: Step) {
    step.LoggedOut? && Accompanied(step.p, step.beside)
  }

  /** Before it is cleared, a quitter ends the expedition exactly if too few stay or the leader
      goes, unless by disconnecting beside a party member, who then leads; afterwards exactly
      if nobody stays. Leaving the party never ends it. */
  lemma QuitterEndsTheEventIff(s: Cwk, a: Action, p: Player)
    requires Legal(s, a) && Distinct(s.inst.roster) && (Quits(a.step, p) || a.step == LeftParty(p))
    ensures var v, rest := Do(s, a).inst, Without(s.inst.roster, p);
            if a.step.LeftParty? then v == s.inst
            else
              && (v.Disposed() <==>
                    if s.inst.cleared then rest == []
                    else |rest| < 6 || (p == s.inst.leader && !HandsOver(a.step)))
              && v.leader == (if p == s.inst.leader && HandsOver(a.step) then Heir(p, a.step.beside).value.id
                              else s.inst.leader)
              && v.roster == (if v.Disposed() then [] else rest) && p !in v.roster
  {
    WithoutRemovesOne(s.inst.roster, p);
    if a.step.LoggedOut? {
      HeirIsHighest(p, a.step.beside);
      TeamLacksIff(HandedOver(s.inst, p, a.step.beside), MIN_PLAYERS, p);
    } else {
      TeamLacksIff(s.inst, MIN_PLAYERS, p);
    }
  }

  ghost predicate SentOut(v: Instance, w: Instance, p: Player) {
    if w.Disposed() then Evicted(v.(gone := v.gone + [p]), w, Without(v.roster, p), 610030020)
    else w.gone == v.gone + [p] && w.warps == v.warps
  }

  /** A quitter is not warped; if the event ends, everybody else is, to the exit. */
  lemma OthersAreSentOut(s: Cwk, a: Action, p: Player)
    requires Legal(s, a) && Quits(a.step, p)
    ensures SentOut(s.inst, Do(s, a).inst, p)
  {
    if a.step.LoggedOut? {
      DroppedEvicts(HandedOver(s.inst, p, a.step.beside), p, MIN_PLAYERS, EXIT_MAP);
    } else {
      DroppedEvicts(s.inst, p, MIN_PLAYERS, EXIT_MAP);
    }
  }

  /** What else can happen: only time running out sends anybody out, and then everybody. */
  lemma WholeTeamStepsInFull(s: Cwk, a: Action)
    requires Legal(s, a)
    ensures var v, w := s.inst, Do(s, a).inst;
            && (IsVisit(a.step) ==> w == v.(deadline := w.deadline, restarts := w.restarts))
            && (a.step.NewLeader? ==> w == v.(leader := a.step.leader))
            && (a.step.Clear? ==> w == v.(cleared := true, deadline := None))
            && (a.step.Timeout? ==> Evicted(v, w, v.roster, 610030020))
  {
    EndedEvicts(s.inst, EXIT_MAP);
  }

  /** The visits to event maps, by whichever players. */
  ghost function Visits(actions: seq<Action>): seq<Stages.Visit> {
    if actions == [] then []
    else
      var a := actions[|actions| - 1];
      Visits(actions[..|actions| - 1])
      + if IsVisit(a.step) then [Stages.Visit(a.step.mapid, a.now)] else []
  }

  /** Stage and restarts are those of the visits; until it is cleared, so is the timer. */
  ghost predicate Follows(q: Stages.Quest, s: Cwk, start: int, visits: seq<Stages.Visit>)
    requires Stages.WellFormed(q)
  {
    var p := Stages.Run(q, start, visits);
    && s.stage == s.inst.restarts == p.passed
    && (!s.inst.cleared ==> Stages.Timely(q, start, visits))
    && (!s.inst.cleared && !s.inst.Disposed() ==> s.inst.deadline == Some(p.deadline))
  }

  lemma VisitFollows(q: Stages.Quest, s: Cwk, mapid: int, now: int, start: int, visits: seq<Stages.Visit>)
    requires Stages.WellFormed(q) && Follows(q, s, start, visits) && !s.inst.Disposed()
    requires s.inst.deadline.Some? ==> now <= s.inst.deadline.value
    ensures Follows(q, Advanced(q, s, mapid, now), start, visits + [Stages.Visit(mapid, now)])
  {
    Stages.RunNext(q, start, visits, Stages.Visit(mapid, now));
  }

  /** Nothing but a visit touches the stage or a running timer. */
  lemma OtherStepsKeepTheTimer(s: Cwk, a: Action)
    requires !s.inst.Disposed() && !IsVisit(a.step)
    ensures var r := Do(s, a);
            && r.stage == s.stage && r.inst.restarts == s.inst.restarts
            && (!r.inst.cleared ==> !s.inst.cleared && (r.inst.Disposed() || r.inst.deadline == s.inst.deadline))
  {
  }

  lemma StepFollowsVisit(q: Stages.Quest, s: Cwk, a: Action, start: int, visits: seq<Stages.Visit>)
    requires q == QUEST && Legal(s, a) && Follows(q, s, start, visits)
    ensures Follows(q, Do(s, a), start,
                    visits + if IsVisit(a.step) then [Stages.Visit(a.step.mapid, a.now)] else [])
  {
    if IsVisit(a.step) {
      VisitFollows(q, s, a.step.mapid, a.now, start, visits);
    } else {
      OtherStepsKeepTheTimer(s, a);
      assert visits + [] == visits;
    }
  }

  /** Two minutes at the start, ten behind each of the first three gates, then twenty, an hour,
      and one minute. */
  function StageTime(stage: int): int {
    if stage == 0 then 120000 else if stage <= 3 then 600000 else if stage == 4 then 1200000
    else if stage == 5 then 3600000 else 60000
  }

  /** While the event runs uncleared, its timer runs from the moment the gate of its stage was
      opened, with the time of that stage, and out within 113 minutes of the start. */
  ghost predicate OnTime(s: Cwk, start: int, visits: seq<Stages.Visit>) {
    !s.inst.cleared && !s.inst.Disposed() ==>
      && s.inst.deadline == Some(Stages.OpenedAt(QUEST, start, visits) + StageTime(s.stage))
      && s.inst.deadline.value <= start + 6780000
  }

  lemma StageIsOnTime(s: Cwk, start: int, visits: seq<Stages.Visit>)
    requires Follows(QUEST, s, start, visits)
    ensures OnTime(s, start, visits)
  {
    if !s.inst.cleared {
      TimerIsTheStages(start, visits);
      QuestTakes113Minutes();
      TimerIsInTime(start, visits, 6780000);
    }
  }

  lemma TimerIsTheStages(start: int, visits: seq<Stages.Visit>)
    ensures var p := Stages.Run(QUEST, start, visits);
            p.deadline == Stages.OpenedAt(QUEST, start, visits) + StageTime(p.passed)
  {
    Stages.TimerRunsFromTheGate(QUEST, start, visits);
  }

  lemma TimerIsInTime(start: int, visits: seq<Stages.Visit>, total: int)
    requires Stages.Timely(QUEST, start, visits) && total == Stages.Sum(QUEST.times)
    ensures Stages.Run(QUEST, start, visits).deadline <= start + total
  {
    Stages.RunsOutInTime(QUEST, start, visits);
  }

  lemma StepIsOnTime(s: Cwk, a: Action, start: int, visits: seq<Stages.Visit>)
    requires Legal(s, a) && OnTime(s, start, visits) && !s.inst.cleared
    ensures a.now <= start + 6780000
  {
  }

  lemma {:induction false} StageFollowsVisits(team: seq<Player>, leader: Player, start: int, actions: seq<Action>)
    requires LegalRun(Begun(team, leader, start), actions)
    ensures Follows(QUEST, Play(Begun(team, leader, start), actions), start, Visits(actions))
  {
    if actions != [] {
      var init := actions[..|actions| - 1];
      StageFollowsVisits(team, leader, start, init);
      StepFollowsVisit(QUEST, Play(Begun(team, leader, start), init), actions[|actions| - 1], start, Visits(init));
    }
  }

  lemma QuestTakes113Minutes()
    ensures Stages.Sum(QUEST.times) == 6780000
  {
    var t := QUEST.times;
    assert t[..7] == t && t[..0] == [];
    Stages.SumNext(t, 0);
    Stages.SumNext(t, 1);
    Stages.SumNext(t, 2);
    Stages.SumNext(t, 3);
    Stages.SumNext(t, 4);
    Stages.SumNext(t, 5);
    Stages.SumNext(t, 6);
  }

  lemma GatesOpenInOrder(start: int, visits: seq<Stages.Visit>, k: nat, gates: seq<int>)
    requires gates == [610030200, 610030300, 610030400, 610030500, 610030600, 610030800] && k <= 6
    ensures Stages.Run(QUEST, start, visits).passed <= 6
    ensures k <= Stages.Run(QUEST, start, visits).passed <==> Stages.IsSubsequence(gates[..k], visits)
  {
    Stages.StageIsLongestGatePrefix(QUEST, start, visits, k);
  }

  /** current_instance is the longest prefix of the gates visited in order, each of which has
      restarted the timer once. */
  lemma StageCountsGates(team: seq<Player>, leader: Player, start: int, actions: seq<Action>, k: nat, gates: seq<int>)
    requires LegalRun(Begun(team, leader, start), actions)
    requires gates == [610030200, 610030300, 610030400, 610030500, 610030600, 610030800] && k <= 6
    ensures var s := Play(Begun(team, leader, start), actions);
            && 0 <= s.stage <= 6 && s.inst.restarts == s.stage
            && (k <= s.stage <==> Stages.IsSubsequence(gates[..k], Visits(actions)))
  {
    StageFollowsVisits(team, leader, start, actions);
    GatesOpenInOrder(start, Visits(actions), k, gates);
  }

  ghost predicate InTime(s: Cwk, start: int, actions: seq<Action>) {
    && OnTime(Play(s, actions), start, Visits(actions))
    && (actions != [] && !Play(s, actions[..|actions| - 1]).inst.cleared
        ==> actions[|actions| - 1].now <= start + 6780000)
  }

  /** Until the quest is cleared, each gate grants the time of the stage that it opens, and
      nothing happens later than 113 minutes after setup. */
  lemma StageAndTimeLimit(team: seq<Player>, leader: Player, start: int, actions: seq<Action>)
    requires LegalRun(Begun(team, leader, start), actions)
    ensures InTime(Begun(team, leader, start), start, actions)
  {
    StageFollowsVisits(team, leader, start, actions);
    StageIsOnTime(Play(Begun(team, leader, start), actions), start, Visits(actions));
    if actions != [] {
      var init := actions[..|actions| - 1];
      var s := Play(Begun(team, leader, start), init);
      StageFollowsVisits(team, leader, start, init);
      StageIsOnTime(s, start, Visits(init));
      if !s.inst.cleared {
        StepIsOnTime(s, actions[|actions| - 1], start, Visits(init));
      }
    }
  }
}
