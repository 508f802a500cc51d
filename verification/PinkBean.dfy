/** scripts/event/PinkBeanBattle.js: five waves of guardians that wake from statues, and
    the relic that drops when the last of them falls.

    Host assumptions: a slain guardian is off the map when monsterKilled runs and leaves
    its statue behind; Pink Bean can be hurt only once its guardians are gone for good;
    somebody is registered while the battle runs. */
module PinkBean {
  import opened Basics
  import opened Events

  const EXIT_MAP := 270050300

  /** Statue and guardian of each of the five seats. */
  function Statue(seat: nat): int {
    8820019 + seat
  }

  function Guardian(seat: nat): int {
    8820002 + seat
  }

  predicate IsPinkBean(mobid: int) {
    mobid == 8820001
  }

  predicate IsJrBoss(mobid: int) {
    mobid >= 8820002 && mobid <= 8820006
  }

  function Awake(live: multiset<int>): nat {
    live[8820002] + live[8820003] + live[8820004] + live[8820005] + live[8820006]
  }

  datatype Battle = Battle(live: multiset<int>, stage: int, pending: nat, drops: nat, defeated: bool)

  // ----- the handlers, as functions of the state -----

  /** One monster changes its form: every monster of that id goes, one of the other comes. */
  ghost function Reborn(live: multiset<int>, id: int, spawnid: int): multiset<int> {
    live[id := 0] + multiset{spawnid}
  }

  /** The wave loop from iteration i on; a missing statue throws and ends it. */
  ghost function Woken(live: multiset<int>, i: int, stage: int): multiset<int>
    decreases stage - i
  {
    var id := 8820019 + i % 5;
    if i > stage || id !in live then live else Woken(Reborn(live, id, id - 17), i + 1, stage)
  }

  ghost function WaveStarted(b: Battle): Battle {
    b.(live := Woken(b.live, 1, b.stage))
  }

  ghost function MonsterKilled(b: Battle, mobid: int): Battle {
    if IsPinkBean(mobid) then b.(live := multiset{}, defeated := true)
    else if !IsJrBoss(mobid) || Awake(b.live) != 0 then b
    else if b.stage == 5 then b.(drops := b.drops + 1)
    else b.(stage := b.stage + 1, pending := b.pending + 1)
  }

  class PinkBeanEvent {
    const eim: EventInstance
    var live: multiset<int>
    var stage: int
    var pending: nat       // scheduled calls of startWave
    var drops: nat         // copies of item 4001193
    var defeated: bool
    var fallenPlayers: int

    ghost function View(): Battle
      reads this
    {
      Battle(live, stage, pending, drops, defeated)
    }

    constructor (team: seq<Player>, leader: Player, live: multiset<int>)
      ensures View() == Battle(live, 1, 1, 0, false) && fallenPlayers == 0 && fresh(eim)
      ensures eim.View() == Instance(team, [], [], leader, false, 0, None, 0)
    {
      eim := new EventInstance(team, leader);
      this.live, stage, pending, drops, defeated, fallenPlayers := live, 1, 1, 0, false, 0;
    }

    method SpawnJrBoss(id: int, gotKilled: bool)
      modifies `live
      ensures live == if gotKilled then old(live) + multiset{id + 17} else Reborn(old(live), id, id - 17)
    {
      var spawnid;
      if gotKilled {
        spawnid := id + 17;
      } else {
        live := live[id := 0];
        spawnid := id - 17;
      }
      live := live + multiset{spawnid};
    }

    method StartWave()
      modifies `live
      ensures View() == WaveStarted(old(View()))
    {
      var i := 1;
      while i <= stage
        invariant Woken(live, i, stage) == Woken(old(live), 1, stage)
        decreases stage - i
      {
        var id := 8820019 + i % 5;
        if id !in live {
          return;
        }
        SpawnJrBoss(id, false);
        i := i + 1;
      }
    }

    method OnMonsterKilled(mobid: int)
      modifies `live, `stage, `pending, `drops, `defeated
      ensures View() == MonsterKilled(old(View()), mobid)
    {
      if IsPinkBean(mobid) {
        defeated := true;
        live := multiset{};
      } else if IsJrBoss(mobid) {
        if Awake(live) == 0 {
          if stage == 5 {
            drops := drops + 1;
          } else {
            stage := stage + 1;
            pending := pending + 1;
          }
        }
      }
    }

    /** The battle is called off on the fifth death, and on no other. */
    method OnPlayerDead()
      requires Distinct(eim.roster)
      modifies `fallenPlayers, eim
      ensures fallenPlayers == old(fallenPlayers) + 1
      ensures eim.View() == if fallenPlayers == 5 then Ended(old(eim.View()), EXIT_MAP) else old(eim.View())
      ensures fallenPlayers == 5 ==> Evicted(old(eim.View()), eim.View(), old(eim.roster), 270050300)
    {
      var count := fallenPlayers;
      count := count + 1;
      fallenPlayers := count;
      if count == 5 {
        EndedEvicts(eim.View(), EXIT_MAP);
        eim.End(EXIT_MAP);
      }
    }
  }

  // ----- runs -----

  datatype Step = WaveTimer | Slay(seat: nat) | PinkBeanFalls

  ghost predicate Legal(b: Battle, step: Step) {
    !b.defeated &&
    match step
    case WaveTimer => b.pending > 0
    case Slay(seat) => seat < 5 && Guardian(seat) in b.live
    case PinkBeanFalls => b.drops > 0
  }

  ghost function Do(b: Battle, step: Step): Battle
    requires Legal(b, step)
  {
    match step
    case WaveTimer => WaveStarted(b.(pending := b.pending - 1))
    case Slay(seat) =>
      MonsterKilled(b.(live := b.live - multiset{Guardian(seat)} + multiset{Statue(seat)}), Guardian(seat))
    case PinkBeanFalls => MonsterKilled(b, 8820001)
  }

  /** Every seat holds its statue or its guardian. */
  ghost predicate Seated(live: multiset<int>) {
    forall seat: nat :: seat < 5 ==> live[Statue(seat)] + live[Guardian(seat)] == 1
  }

  /** The iteration of the wave loop that wakes the seat. */
  function Turn(seat: nat): nat {
    if seat == 0 then 5 else seat
  }

  /** The kills it takes to clear the first n waves. */
  function Cleared(n: int): int {
    n * (n - 1) / 2
  }

  ghost predicate WavePending(b: Battle, kills: int) {
    b.pending == 1 && Awake(b.live) == 0 && b.drops == 0 && kills == Cleared(b.stage)
  }

  ghost predicate WaveFighting(b: Battle, kills: int) {
    && b.pending == 0 && b.drops == 0
    && 1 <= Awake(b.live) <= b.stage && kills == Cleared(b.stage) + b.stage - Awake(b.live)
    && forall seat: nat :: seat < 5 && Guardian(seat) in b.live ==> Turn(seat) <= b.stage
  }

  ghost predicate FinalPhase(b: Battle, kills: int) {
    b.pending == 0 && Awake(b.live) == 0 && b.stage == 5 && b.drops == 1 && kills == 15
  }

  ghost predicate Orderly(b: Battle, kills: int) {
    && 1 <= b.stage <= 5 && !b.defeated && Seated(b.live)
    && (WavePending(b, kills) || WaveFighting(b, kills) || FinalPhase(b, kills))
  }

  ghost predicate AwakeUpTo(live: multiset<int>, n: int) {
    Seated(live) && forall seat: nat :: seat < 5 ==> (live[Guardian(seat)] == 1 <==> Turn(seat) <= n)
  }

  lemma AwakeUpToCounts(live: multiset<int>, n: int)
    requires AwakeUpTo(live, n) && 0 <= n <= 5
    ensures Awake(live) == n
  {
    assert Guardian(0) == 8820002 && Guardian(1) == 8820003 && Guardian(2) == 8820004
        && Guardian(3) == 8820005 && Guardian(4) == 8820006;
    assert live[Guardian(0)] == if 5 <= n then 1 else 0;
    assert live[Guardian(1)] == if 1 <= n then 1 else 0;
    assert live[Guardian(2)] == if 2 <= n then 1 else 0;
    assert live[Guardian(3)] == if 3 <= n then 1 else 0;
    assert live[Guardian(4)] == if 4 <= n then 1 else 0;
  }

  lemma NobodyAwake(live: multiset<int>)
    requires Seated(live) && Awake(live) == 0
    ensures AwakeUpTo(live, 0)
  {
  }

  lemma WakingOne(live: multiset<int>, i: int)
    requires 1 <= i <= 5 && AwakeUpTo(live, i - 1)
    ensures var id := 8820019 + i % 5; id in live && AwakeUpTo(Reborn(live, id, id - 17), i)
  {
    var seat: nat := i % 5;
    assert Turn(seat) == i;
    assert live[Statue(seat)] + live[Guardian(seat)] == 1;
    var r := Reborn(live, Statue(seat), Guardian(seat));
    forall other: nat | other < 5
      ensures r[Statue(other)] + r[Guardian(other)] == 1 && (r[Guardian(other)] == 1 <==> Turn(other) <= i)
    {
      if other != seat {
        assert r[Statue(other)] == live[Statue(other)] && r[Guardian(other)] == live[Guardian(other)];
        assert Turn(other) != i;
      }
    }
  }

  lemma {:induction false} WokenWave(live: multiset<int>, i: int, stage: int)
    requires 1 <= i <= stage + 1 <= 6 && AwakeUpTo(live, i - 1)
    ensures AwakeUpTo(Woken(live, i, stage), stage)
    decreases stage - i
  {
    if i <= stage {
      var id := 8820019 + i % 5;
      var next := Reborn(live, id, id - 17);
      assert AwakeUpTo(next, i) && id in live by {
        WakingOne(live, i);
      }
      WokenWave(next, i + 1, stage);
    }
  }

  /** Wave s wakes exactly s different guardians. */
  lemma WaveWakesStageGuardians(b: Battle)
    requires Seated(b.live) && Awake(b.live) == 0 && 1 <= b.stage <= 5
    ensures var w := WaveStarted(b);
            && Seated(w.live) && Awake(w.live) == b.stage
            && forall seat: nat :: seat < 5 ==> (Guardian(seat) in w.live <==> Turn(seat) <= b.stage)
  {
    NobodyAwake(b.live);
    WokenWave(b.live, 1, b.stage);
    AwakeUpToCounts(WaveStarted(b).live, b.stage);
  }

  lemma SlainLeavesStatue(live: multiset<int>, seat: nat)
    requires Seated(live) && seat < 5 && Guardian(seat) in live
    ensures var r := live - multiset{Guardian(seat)} + multiset{Statue(seat)};
            && Seated(r) && Awake(r) == Awake(live) - 1 && Guardian(seat) !in r
            && forall other: nat :: other < 5 && Guardian(other) in r ==> Guardian(other) in live
  {
  }

  function Kills(kills: int, step: Step): int {
    if step.Slay? then kills + 1 else kills
  }

  lemma GuardianInAwake(live: multiset<int>, seat: nat)
    requires seat < 5 && Guardian(seat) in live
    ensures Awake(live) > 0
  {
  }

  lemma SlayIsOrderly(b: Battle, seat: nat, kills: int)
    requires Orderly(b, kills) && Legal(b, Slay(seat))
    ensures Orderly(Do(b, Slay(seat)), kills + 1)
  {
    GuardianInAwake(b.live, seat);
    SlainLeavesStatue(b.live, seat);
    NextCleared(b.stage);
    assert Cleared(5) == 10;
  }

  lemma NextCleared(n: int)
    ensures Cleared(n + 1) == Cleared(n) + n
  {
  }

  lemma StepIsOrderly(b: Battle, step: Step, kills: int)
    requires Orderly(b, kills) && Legal(b, step)
    ensures Do(b, step).defeated || Orderly(Do(b, step), Kills(kills, step))
  {
    match step
    case WaveTimer => WaveWakesStageGuardians(b.(pending := b.pending - 1));
    case Slay(seat) => SlayIsOrderly(b, seat, kills);
    case PinkBeanFalls =>
  }

  ghost predicate LegalRun(b: Battle, steps: seq<Step>)
    decreases |steps|, 0
  {
    steps == [] ||
    (LegalRun(b, steps[..|steps| - 1]) && Legal(Play(b, steps[..|steps| - 1]), steps[|steps| - 1]))
  }

  ghost function Play(b: Battle, steps: seq<Step>): Battle
    requires LegalRun(b, steps)
    decreases |steps|, 1
  {
    if steps == [] then b else Do(Play(b, steps[..|steps| - 1]), steps[|steps| - 1])
  }

  ghost function Slain(steps: seq<Step>): nat {
    if steps == [] then 0
    else Slain(steps[..|steps| - 1]) + if steps[|steps| - 1].Slay? then 1 else 0
  }

  lemma GoesOnUntilDefeated(b: Battle, kills: int)
    requires b.defeated || Orderly(b, kills)
    ensures b.defeated <==> forall step :: !Legal(b, step)
  {
    if !b.defeated && WaveFighting(b, kills) {
      SomebodyAwake(b.live);
      var seat: nat :| seat < 5 && Guardian(seat) in b.live;
      assert Legal(b, Slay(seat));
    }
    assert !b.defeated && WavePending(b, kills) ==> Legal(b, WaveTimer);
    assert !b.defeated && FinalPhase(b, kills) ==> Legal(b, PinkBeanFalls);
  }

  lemma SomebodyAwake(live: multiset<int>)
    requires Awake(live) > 0
    ensures exists seat: nat :: seat < 5 && Guardian(seat) in live
  {
    assert Guardian(0) == 8820002 && Guardian(1) == 8820003 && Guardian(2) == 8820004
        && Guardian(3) == 8820005 && Guardian(4) == 8820006;
  }

  /** Waves started, guardians slain and Pink Bean's fall are all that happens. */
  ghost predicate Reached(b: Battle, kills: int, steps: int) {
    if b.defeated then steps == 21 && kills == 15 && b.drops == 1 && b.live == multiset{}
    else Orderly(b, kills) && steps == kills + b.stage - b.pending
  }

  lemma StepReaches(b: Battle, step: Step, kills: int, steps: int)
    requires Reached(b, kills, steps) && Legal(b, step)
    ensures Reached(Do(b, step), Kills(kills, step), steps + 1)
  {
    StepIsOrderly(b, step, kills);
  }

  lemma {:induction false} EveryRunReaches(live: multiset<int>, steps: seq<Step>)
    requires Seated(live) && Awake(live) == 0 && LegalRun(Battle(live, 1, 1, 0, false), steps)
    ensures Reached(Play(Battle(live, 1, 1, 0, false), steps), Slain(steps), |steps|)
  {
    if steps != [] {
      var init := steps[..|steps| - 1];
      EveryRunReaches(live, init);
      StepReaches(Play(Battle(live, 1, 1, 0, false), init), steps[|steps| - 1], Slain(init), |init|);
    }
  }

  /** Exactly one phase holds at a time, no run slays more than 15 guardians, and the relic
      has dropped once if and only if the fifteenth has fallen. */
  lemma {:induction false} RelicDropsOnce(live: multiset<int>, steps: seq<Step>)
    requires Seated(live) && Awake(live) == 0 && LegalRun(Battle(live, 1, 1, 0, false), steps)
    ensures var b := Play(Battle(live, 1, 1, 0, false), steps);
            var k := Slain(steps);
            && k <= 15 && b.drops == (if k == 15 then 1 else 0)
            && (!b.defeated ==>
                  && (WavePending(b, k) || WaveFighting(b, k) || FinalPhase(b, k))
                  && !(WavePending(b, k) && WaveFighting(b, k))
                  && !(WavePending(b, k) && FinalPhase(b, k))
                  && !(WaveFighting(b, k) && FinalPhase(b, k)))
  {
    EveryRunReaches(live, steps);
    var b := Play(Battle(live, 1, 1, 0, false), steps);
    if !b.defeated {
      assert Cleared(1) == 0 && Cleared(2) == 1 && Cleared(3) == 3 && Cleared(4) == 6 && Cleared(5) == 10;
      assert b.stage == 1 || b.stage == 2 || b.stage == 3 || b.stage == 4 || b.stage == 5;
    }
  }

  /** Unless it is called off, no battle can stall or go on forever: while Pink Bean stands
      something can happen, and after 21 steps, neither fewer nor more, Pink Bean has fallen. */
  lemma {:induction false} BattleIsWonIn21Steps(live: multiset<int>, steps: seq<Step>)
    requires Seated(live) && Awake(live) == 0 && LegalRun(Battle(live, 1, 1, 0, false), steps)
    ensures var b := Play(Battle(live, 1, 1, 0, false), steps);
            && |steps| <= 21
            && (b.defeated <==> |steps| == 21) && (b.defeated ==> b.live == multiset{})
            && (b.defeated <==> forall step :: !Legal(b, step))
  {
    EveryRunReaches(live, steps);
    var b := Play(Battle(live, 1, 1, 0, false), steps);
    RelicDropsOnce(live, steps);
    GoesOnUntilDefeated(b, Slain(steps));
    assert Cleared(5) == 10;
  }
}
