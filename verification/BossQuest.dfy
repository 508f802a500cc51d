/** scripts/event/BossQuestHell.js: 44 bosses one after the other, points for each, and a
    roster whose last member closes the event.

    The host reports allMonstersDead when the last live monster falls. A boss may bring in
    others while it lives, and the forms it revives into are registered before its death
    is reported (MapleMonster.java:555-567), so a monster joins only beside a live one. */
module BossQuest {
  import opened Basics
  import opened Events

  const BOSSES := 44
  const EXIT_MAP := 220000000

  datatype Quest = Quest(
    points: int,
    number: int,         // monster_number
    begins: nat,         // scheduled calls of beginQuest
    spawns: nat,         // scheduled calls of monsterSpawn
    mobs: nat,           // monsters alive, each registered
    requested: seq<int>) // list indices that monsterSpawn has looked up

  ghost function BossesDown(q: Quest): Quest {
    var r := q.(points := q.points + 3 * (q.number + 1), number := q.number + 1);
    if r.number > 43 then r else r.(spawns := r.spawns + 1)
  }

  /** An index past the list finds no monster and throws before anything is registered. */
  ghost function Spawned(q: Quest): Quest {
    q.(requested := q.requested + [q.number], mobs := q.mobs + if 0 <= q.number < BOSSES then 1 else 0)
  }

  /** A member leaves: points first, then out; the last one disposes of the event. */
  ghost function Left(v: Instance, p: Player): Instance {
    var w := Exited(v, p, EXIT_MAP);
    if |v.roster| == 1 then DisposedOf(w) else w
  }

  ghost function AllLeft(v: Instance): Instance {
    var w := v.(roster := [], gone := v.gone + v.roster, warps := v.warps + Everyone(v.roster, EXIT_MAP));
    if v.roster == [] then w else DisposedOf(w)
  }

  class BossQuestEvent {
    const eim: EventInstance
    var points: int
    var monsterNumber: int
    var begins: nat
    var spawns: nat
    var mobs: nat
    var requested: seq<int>
    var awards: seq<(Player, int)>   // saveBossQuestPoints, in order

    ghost function View(): Quest
      reads this
    {
      Quest(points, monsterNumber, begins, spawns, mobs, requested)
    }

    constructor (team: seq<Player>, leader: Player)
      ensures View() == Quest(0, 0, 1, 0, 0, []) && awards == [] && fresh(eim)
      ensures eim.View() == Instance(team, [], [], leader, false, 0, None, 0)
    {
      eim := new EventInstance(team, leader);
      points, monsterNumber, begins, spawns, mobs, requested, awards := 0, 0, 1, 0, 0, [], [];
    }

    method AllMonstersDead(monsterTime: int)
      modifies `points, `monsterNumber, `spawns
      ensures View() == BossesDown(old(View()))
    {
      var number := monsterNumber;
      var p := points;
      if 0 - monsterTime <= 0 {
        p := p + 3 * (number + 1);
      } else {
        p := p + 3 * (number + 1);
      }
      number := number + 1;
      points := p;
      monsterNumber := number;
      if !(number > 43) {
        spawns := spawns + 1;
      }
    }

    method MonsterSpawn()
      modifies `requested, `mobs
      ensures View() == Spawned(old(View()))
    {
      requested := requested + [monsterNumber];
      if 0 <= monsterNumber < BOSSES {
        mobs := mobs + 1;
      }
    }

    method PlayerExit(p: Player)
      requires p in eim.roster
      modifies `awards, eim
      ensures awards == old(awards) + [(p, points)]
      ensures eim.View() == Left(old(eim.View()), p)
    {
      var dispose := |eim.roster| == 1;
      awards := awards + [(p, points)];
      eim.PlayerExit(p, EXIT_MAP);
      if dispose {
        eim.Dispose();
      }
    }

    /** disbandParty and clearPQ: everybody leaves, each with the points, and the event is
        disposed of exactly once, by the last. */
    method ExitEverybody()
      requires Distinct(eim.roster)
      modifies `awards, eim
      ensures awards == old(awards) + Everyone(old(eim.roster), points)
      ensures eim.View() == AllLeft(old(eim.View()))
    {
      var party := eim.roster;
      ghost var v := eim.View();
      for i := 0 to |party|
        invariant awards == old(awards) + Everyone(party[..i], points)
        invariant eim.roster == party[i..]
        invariant eim.View() == if i < |party| || i == 0
                                then v.(roster := party[i..], gone := v.gone + party[..i],
                                        warps := v.warps + Everyone(party[..i], EXIT_MAP))
                                else AllLeft(v)
      {
        WithoutHead(party[i..]);
        assert party[i..][1..] == party[i + 1..] && party[i..][0] == party[i];
        assert v.gone + party[..i] + [party[i]] == v.gone + party[..i + 1];
        ExtendEveryone(v.warps, party, i, EXIT_MAP);
        ExtendEveryone(old(awards), party, i, points);
        assert i + 1 == |party| ==> party[..i + 1] == party;
        PlayerExit(party[i]);
      }
      assert party[..|party|] == party;
    }
  }

  // ----- runs -----

  datatype Step = Begin | SpawnTimer | Join | Kill

  ghost predicate Legal(q: Quest, step: Step) {
    match step
    case Begin => q.begins > 0
    case SpawnTimer => q.spawns > 0
    case Join => q.mobs > 0
    case Kill => q.mobs > 0
  }

  ghost function Do(q: Quest, step: Step): Quest
    requires Legal(q, step)
  {
    match step
    case Begin => q.(begins := q.begins - 1, spawns := q.spawns + 1)
    case SpawnTimer => Spawned(q.(spawns := q.spawns - 1))
    case Join => q.(mobs := q.mobs + 1)
    case Kill =>
      var r := q.(mobs := q.mobs - 1);
      if r.mobs == 0 then BossesDown(r) else r
  }

  ghost predicate LegalRun(q: Quest, steps: seq<Step>)
    decreases |steps|, 0
  {
    steps == [] ||
    (LegalRun(q, steps[..|steps| - 1]) && Legal(Play(q, steps[..|steps| - 1]), steps[|steps| - 1]))
  }

  ghost function Play(q: Quest, steps: seq<Step>): Quest
    requires LegalRun(q, steps)
    decreases |steps|, 1
  {
    if steps == [] then q else Do(Play(q, steps[..|steps| - 1]), steps[|steps| - 1])
  }

  const START := Quest(0, 0, 1, 0, 0, [])

  /** After k reports that all monsters are dead the team has 3k(k+1)/2 points, in any run. */
  lemma {:induction false} PointsAreTriangular(steps: seq<Step>)
    requires LegalRun(START, steps)
    ensures var q := Play(START, steps);
            q.number >= 0 && 2 * q.points == 3 * q.number * (q.number + 1)
  {
    if steps != [] {
      var init := steps[..|steps| - 1];
      PointsAreTriangular(init);
      TriangleStep(Play(START, init).points, Play(START, init).number);
    }
  }

  lemma TriangleStep(points: int, k: int)
    requires 2 * points == 3 * k * (k + 1)
    ensures 2 * (points + 3 * (k + 1)) == 3 * (k + 1) * (k + 1 + 1)
  {
  }

  /** The quest waits for its start, for a spawn or for the last of a boss's company to
      fall, or is over; the bosses have come in the order of the list. */
  ghost predicate InOrder(q: Quest) {
    var alive := if q.mobs > 0 then 1 else 0;
    && 0 <= q.number <= BOSSES
    && q.begins + q.spawns + alive == (if q.number == BOSSES then 0 else 1)
    && |q.requested| == q.number + alive <= BOSSES
    && (q.begins == 1 ==> q.number == 0)
    && forall i :: 0 <= i < |q.requested| ==> q.requested[i] == i
  }

  lemma StepKeepsOrder(q: Quest, step: Step)
    requires InOrder(q) && Legal(q, step)
    ensures InOrder(Do(q, step))
  {
  }

  /** Whatever company the bosses bring along, every lookup is inside the list, each boss
      comes once and in order, and after the 44th, and only then, nothing more can happen. */
  lemma {:induction false} BossesComeInOrder(steps: seq<Step>)
    requires LegalRun(START, steps)
    ensures var q := Play(START, steps);
            InOrder(q) && (q.number == BOSSES <==> forall step :: !Legal(q, step))
  {
    if steps != [] {
      var init := steps[..|steps| - 1];
      BossesComeInOrder(init);
      StepKeepsOrder(Play(START, init), steps[|steps| - 1]);
    }
    GoesOnUntilTheLast(Play(START, steps));
  }

  lemma GoesOnUntilTheLast(q: Quest)
    requires InOrder(q)
    ensures q.number == BOSSES <==> forall step :: !Legal(q, step)
  {
    assert q.number < BOSSES ==> Legal(q, Begin) || Legal(q, SpawnTimer) || Legal(q, Kill);
  }

  lemma TriangleBound(points: int, k: int)
    requires 0 <= k <= BOSSES && 2 * points == 3 * k * (k + 1)
    ensures points <= 2970 && (k < BOSSES ==> points <= 2838)
  {
    if k < BOSSES {
      assert k * (k + 1) <= 43 * 44;
    }
  }

  /** The points never exceed 2970, and reach it exactly when all bosses are down. */
  lemma {:induction false} FullScore(steps: seq<Step>, q: Quest)
    requires LegalRun(START, steps) && q == Play(START, steps)
    ensures q.points <= 2970 && (q.number == BOSSES <==> q.points == 2970)
  {
    BossesComeInOrder(steps);
    PointsAreTriangular(steps);
    TriangleBound(q.points, q.number);
  }

  /** Whoever the roster holds, the exits award every member once, with the points of the
      moment, send everybody to the exit, and dispose of the event once. */
  lemma EverybodyIsPaidOnce(v: Instance, points: int, p: Player)
    requires Distinct(v.roster) && v.roster != []
    ensures var a := Everyone(v.roster, points);
            && (p in v.roster <==> (p, points) in a)
            && (forall i, j :: 0 <= i < j < |a| ==> a[i] != a[j])
            && |a| == |v.roster|
            && Evicted(v, AllLeft(v).(deadline := None), v.roster, 220000000)
  {
    assert (v.warps + Everyone(v.roster, EXIT_MAP))[..|v.warps|] == v.warps;
  }

  /** One who leaves alone is sent to the exit too, and closes the event exactly as the last. */
  lemma LastOneClosesTheEvent(v: Instance, p: Player)
    requires Distinct(v.roster) && p in v.roster
    ensures var w, rest := Left(v, p), Without(v.roster, p);
            && w.roster == rest && w.gone == v.gone + [p] && w.warps == v.warps + [(p, 220000000)]
            && w.disposals == v.disposals + if rest == [] then 1 else 0
  {
    WithoutRemovesOne(v.roster, p);
  }
}
