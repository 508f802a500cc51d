/** scripts/event/HolidayPQ_1.js: the snowman that grows on snacks and melts when it
    is killed, and the Snow Vigor tokens that Scrooge's subordinates drop.

    Host assumption: killing a friendly monster calls friendlyKilled synchronously,
    which the comment in snowmanEvolve relies on. It is a parameter here, notifies,
    so that what depends on it can be stated. When a snowman dies of damage the engine
    revives its next lower form. */
module HolidayPQ {

  const GENUINE_TOKEN := 4032094
  const FAKE_TOKEN := 4032095
  const MAX_LEVEL := 5
  const MAX_MISSES := 5

  /** The monster id of the snowman at the given difficulty and level. */
  function SnowmanId(difficulty: nat, level: int): int {
    9400316 + 5 * difficulty + level
  }

  predicate IsScrooge(mobid: int) {
    mobid >= 9400319 && mobid <= 9400321
  }

  datatype Growth = Growth(level: int, step: int, live: multiset<int>, ended: bool, rewards: seq<int>)

  /** The field before the summoning, and right after it. */
  const BARE := Growth(0, 0, multiset{}, false, [])

  ghost function Summoned(d: nat): Growth {
    Growth(1, 0, multiset{SnowmanId(d, 1)}, false, [])
  }

  datatype Tokens = Tokens(missing: int, cleared: bool, drops: seq<int>, bossRewards: seq<int>)

  // ----- what each handler does -----

  ghost function FriendlyKilled(g: Growth): Growth {
    if g.level <= 1 then g.(step := 0, ended := true) else g.(step := 0, level := g.level - 1)
  }

  ghost function Killed(notifies: bool, g: Growth, id: int): Growth {
    if id !in g.live then g
    else
      var h := g.(live := g.live - multiset{id});
      if notifies then FriendlyKilled(h) else h
  }

  ghost function Evolved(notifies: bool, d: nat, g: Growth, curLevel: int): Growth {
    Grown(d, Killed(notifies, g.(level := curLevel + 2), SnowmanId(d, curLevel)), curLevel)
  }

  ghost function Grown(d: nat, g: Growth, curLevel: int): Growth {
    g.(live := g.live + multiset{SnowmanId(d, curLevel + 1)},
       rewards := if curLevel >= 4 then g.rewards + [2 * d - 1] else g.rewards)
  }

  ghost function Snacked(notifies: bool, d: nat, g: Growth): Growth {
    if g.ended || g.level >= MAX_LEVEL then g
    else if g.step >= 2 + d * g.level then Evolved(notifies, d, g, g.level).(step := 0)
    else if SnowmanId(d, g.level) !in g.live then g  // healing a missing snowman throws before any write
    else g.(step := g.step + 1)
  }

  ghost function FakeSnacked(g: Growth): Growth {
    if g.ended || g.level >= MAX_LEVEL || g.step <= 0 then g else g.(step := g.step - 1)
  }

  /** The live snowman dies of damage: the engine revives the next lower form. */
  ghost function Melted(notifies: bool, d: nat, g: Growth): Growth {
    if g.ended || SnowmanId(d, g.level) !in g.live then g
    else
      var revived := if g.level <= 1 then multiset{} else multiset{SnowmanId(d, g.level - 1)};
      var h := g.(live := g.live - multiset{SnowmanId(d, g.level)} + revived);
      if notifies then FriendlyKilled(h) else h
  }

  /** One ordinary or boss kill; miss and genuine are the two random draws, and without a
      player to credit the drop throws before the counter is reset. */
  ghost function MonsterKilled(d: nat, t: Tokens, kill: Kill): Tokens {
    if t.cleared then t
    else if IsScrooge(kill.mobid) then t.(cleared := true, bossRewards := t.bossRewards + [2 * d])
    else if kill.miss && t.missing < MAX_MISSES then t.(missing := t.missing + 1)
    else if !kill.anyone then t
    else t.(missing := 0, drops := t.drops + [if kill.miss || kill.genuine then GENUINE_TOKEN else FAKE_TOKEN])
  }

  datatype Kill = Kill(mobid: int, miss: bool, genuine: bool, anyone: bool)

  class HolidayEvent {
    const difficulty: nat
    const notifies: bool
    var snowmanLevel: int
    var snowmanStep: int
    var live: multiset<int>
    var ended: bool
    var rewards: seq<int>
    var missingDrops: int
    var cleared: bool
    var drops: seq<int>
    var bossRewards: seq<int>

    ghost function Snowman(): Growth
      reads this
    {
      Growth(snowmanLevel, snowmanStep, live, ended, rewards)
    }

    ghost function Vigor(): Tokens
      reads this
    {
      Tokens(missingDrops, cleared, drops, bossRewards)
    }

    constructor (difficulty: nat, notifies: bool)
      ensures this.difficulty == difficulty && this.notifies == notifies
      ensures Snowman() == BARE
      ensures Vigor() == NO_TOKENS
    {
      this.difficulty, this.notifies := difficulty, notifies;
      snowmanLevel, snowmanStep, live, ended, rewards := 0, 0, multiset{}, false, [];
      missingDrops, cleared, drops, bossRewards := 0, false, [], [];
    }

    /** The party leader's word to scripts/npc/9105004.js, which it takes only once. */
    method Summon()
      modifies `live, `snowmanLevel
      ensures snowmanLevel == 1 && live == old(live) + multiset{SnowmanId(difficulty, 1)}
      ensures old(Snowman()) == BARE ==> Snowman() == Summoned(difficulty)
    {
      live := live + multiset{9400317 + 5 * difficulty};
      snowmanLevel := 1;
    }

    /** The host's killMonster: an unknown monster is ignored, a friendly one reports its death. */
    method KillMonster(id: int)
      modifies `live, `snowmanLevel, `snowmanStep, `ended
      ensures Snowman() == Killed(notifies, old(Snowman()), id)
    {
      if id !in live {
        return;
      }
      live := live - multiset{id};
      if notifies {
        OnFriendlyKilled();
      }
    }

    method OnFriendlyKilled()
      modifies `snowmanLevel, `snowmanStep, `ended
      ensures Snowman() == FriendlyKilled(old(Snowman()))
    {
      snowmanStep := 0;
      var level := snowmanLevel;
      if level <= 1 {
        ended := true;
      } else {
        snowmanLevel := level - 1;
      }
    }

    /** The second half of snowmanEvolve: the next form appears and, fully grown, pays the stage. */
    method SpawnNextForm(curLevel: int)
      modifies `live, `rewards
      ensures Snowman() == Grown(difficulty, old(Snowman()), curLevel)
    {
      live := live + multiset{9400317 + 5 * difficulty + curLevel};
      if curLevel >= 4 {
        rewards := rewards + [2 * difficulty - 1];
      }
    }

    method SnowmanEvolve(curLevel: int)
      modifies `live, `snowmanLevel, `snowmanStep, `ended, `rewards
      ensures Snowman() == Evolved(notifies, difficulty, old(Snowman()), curLevel)
    {
      snowmanLevel := curLevel + 2;
      assert Snowman() == old(Snowman()).(level := curLevel + 2);
      var snowman := 9400317 + 5 * difficulty + (curLevel - 1);
      assert snowman == SnowmanId(difficulty, curLevel);
      KillMonster(snowman);
      SpawnNextForm(curLevel);
    }

    /** Reactors of a disposed event no longer act. */
    method SnowmanSnack()
      requires !ended
      modifies `live, `snowmanLevel, `snowmanStep, `ended, `rewards
      ensures Snowman() == Snacked(notifies, difficulty, old(Snowman()))
    {
      if snowmanLevel >= 5 {
        return;
      }
      var step := snowmanStep;
      var level := snowmanLevel;
      if step >= 2 + difficulty * level {
        step := 0;
        SnowmanEvolve(level);
      } else {
        if 9400316 + 5 * difficulty + level !in live {
          return;
        }
        step := step + 1;
      }
      snowmanStep := step;
    }

    method SnowmanSnackFake()
      requires !ended
      modifies `snowmanStep
      ensures Snowman() == FakeSnacked(old(Snowman()))
    {
      if snowmanLevel >= 5 {
        return;
      }
      var step := snowmanStep;
      if step > 0 {
        snowmanStep := step - 1;
      }
    }

    method OnMonsterKilled(kill: Kill)
      modifies `missingDrops, `cleared, `drops, `bossRewards
      ensures Vigor() == MonsterKilled(difficulty, old(Vigor()), kill)
    {
      if cleared {
        return;
      } else if IsScrooge(kill.mobid) {
        bossRewards := bossRewards + [2 * difficulty];
        cleared := true;
        return;
      }
      var forceDrop := false;
      if kill.miss {
        var miss := missingDrops;
        if miss < 5 {
          missingDrops := miss + 1;
          return;
        }
        forceDrop := true;
      }
      var item := if forceDrop || kill.genuine then 4032094 else 4032095;
      if !kill.anyone {
        return;
      }
      drops := drops + [item];
      missingDrops := 0;
    }
  }

  // ----- growth over whole runs -----

  datatype Event = Snack | Fake | Melt

  ghost function Step(notifies: bool, d: nat, g: Growth, e: Event): Growth {
    match e
    case Snack => Snacked(notifies, d, g)
    case Fake => FakeSnacked(g)
    case Melt => Melted(notifies, d, g)
  }

  ghost function Run(notifies: bool, d: nat, g: Growth, events: seq<Event>): Growth {
    if events == [] then g
    else Step(notifies, d, Run(notifies, d, g, events[..|events| - 1]), events[|events| - 1])
  }

  /** Exactly one snowman stands, and it is the form that the two counters describe. */
  ghost predicate InForm(d: nat, g: Growth) {
    && 1 <= g.level <= MAX_LEVEL
    && 0 <= g.step <= 2 + d * g.level
    && (g.level == MAX_LEVEL ==> g.step == 0)
    && g.live == multiset{SnowmanId(d, g.level)}
  }

  lemma StepKeepsForm(d: nat, g: Growth, e: Event)
    requires g.ended || InForm(d, g)
    ensures var h := Step(true, d, g, e); h.ended || InForm(d, h)
  {
  }

  /** For the counters, the re-entrant handlers do this: a snack adds a step, or, on 2 + d times
      the level, a level; a fake takes a step away; a death costs the steps and a level, and
      ends the event at level 1. Only a step from level 4 to 5 is rewarded. */
  lemma StepIsSimple(d: nat, g: Growth, e: Event)
    requires InForm(d, g) && !g.ended
    ensures var h := Step(true, d, g, e);
            && (h.ended <==> e.Melt? && g.level == 1)
            && (e.Melt? && g.level > 1 ==> h.level == g.level - 1 && h.step == 0)
            && (!e.Melt? && g.level == 5 ==> h == g)
            && (e.Fake? ==> h.level == g.level && h.step == if g.step > 0 then g.step - 1 else 0)
            && (e.Snack? && g.level < 5 ==>
                  if g.step < 2 + d * g.level then h.level == g.level && h.step == g.step + 1
                  else h.level == g.level + 1 && h.step == 0)
            && h.rewards == g.rewards + if g.level == 4 && h.level == 5 then [2 * d - 1] else []
  {
  }

  /** How often level 5 has been reached. */
  ghost function TimesGrown(d: nat, events: seq<Event>): nat {
    if events == [] then 0
    else
      var init := events[..|events| - 1];
      TimesGrown(d, init)
      + if Run(true, d, Summoned(d), init).level < 5 && Run(true, d, Summoned(d), events).level == 5 then 1 else 0
  }

  /** The stage is paid each time the snowman is fully grown, and never else. */
  lemma {:induction false} FullGrowthIsRewarded(d: nat, events: seq<Event>)
    ensures var g := Run(true, d, Summoned(d), events);
            |g.rewards| == TimesGrown(d, events) && forall i :: 0 <= i < |g.rewards| ==> g.rewards[i] == 2 * d - 1
  {
    if events != [] {
      var init, e := events[..|events| - 1], events[|events| - 1];
      FullGrowthIsRewarded(d, init);
      SnowmanMatchesCounters(d, init);
      var g := Run(true, d, Summoned(d), init);
      if !g.ended {
        StepIsSimple(d, g, e);
      }
    }
  }

  lemma EvolveRaisesOneLevel(d: nat, g: Growth)
    requires InForm(d, g) && !g.ended && g.level < MAX_LEVEL && g.step >= 2 + d * g.level
    ensures var h := Snacked(true, d, g);
            InForm(d, h) && !h.ended && h.level == g.level + 1 && h.step == 0
  {
  }

  /** The snowman on the field always matches the counters, whatever the interleaving. */
  lemma {:induction false} SnowmanMatchesCounters(d: nat, events: seq<Event>)
    ensures var g := Run(true, d, Summoned(d), events); g.ended || InForm(d, g)
  {
    if events != [] {
      var init := events[..|events| - 1];
      SnowmanMatchesCounters(d, init);
      StepKeepsForm(d, Run(true, d, Summoned(d), init), events[|events| - 1]);
    } else {
      assert d * 1 >= 0;
    }
  }

  /** The growth step meets its purpose exactly on a host that reports the kill back. */
  lemma EvolveNeedsNotification(notifies: bool, d: nat, g: Growth)
    requires InForm(d, g) && !g.ended && g.level < MAX_LEVEL && g.step >= 2 + d * g.level
    ensures InForm(d, Snacked(notifies, d, g)) <==> notifies
  {
  }

  ghost predicate StaysInForm(notifies: bool, d: nat, events: seq<Event>) {
    var g := Run(notifies, d, Summoned(d), events);
    g.ended || InForm(d, g)
  }

  lemma {:induction false} SnacksAddUp(notifies: bool, d: nat, n: nat)
    requires n <= 2 + d
    ensures Run(notifies, d, Summoned(d), seq(n, _ => Snack)) == Summoned(d).(step := n)
  {
    if n > 0 {
      SnacksAddUp(notifies, d, n - 1);
      assert seq(n, _ => Snack)[..n - 1] == seq(n - 1, _ => Snack);
      assert d * 1 == d;
    }
  }

  /** So the agreement of SnowmanMatchesCounters holds of all runs exactly on such a host: on
      any other, feeding a new snowman until it grows already breaks it. */
  lemma {:induction false} AgreementNeedsNotification(notifies: bool, d: nat)
    ensures (forall events :: StaysInForm(notifies, d, events)) <==> notifies
  {
    if notifies {
      forall events ensures StaysInForm(true, d, events) {
        SnowmanMatchesCounters(d, events);
      }
    } else {
      var g := Summoned(d).(step := 2 + d);
      var events := seq(3 + d, _ => Snack);
      SnacksAddUp(false, d, 2 + d);
      assert events[..2 + d] == seq(2 + d, _ => Snack);
      assert d * 1 == d;
      EvolveNeedsNotification(false, d, g);
      assert !StaysInForm(false, d, events);
    }
  }

  /** Before the summoning no snack has any effect: the healing call fails first. */
  lemma {:induction false} SnacksBeforeSummoningAreLost(notifies: bool, d: nat, events: seq<Event>)
    ensures Run(notifies, d, BARE, events) == BARE
  {
    if events != [] {
      SnacksBeforeSummoningAreLost(notifies, d, events[..|events| - 1]);
      assert d * 0 == 0;
    }
  }

  // ----- the price of growing -----

  /** Snacks it takes to raise a snowman from level 1 to the given level. */
  ghost function Price(d: nat, level: int): nat
    decreases level
  {
    if level <= 1 then 0 else Price(d, level - 1) + 3 + d * (level - 1)
  }

  ghost function Potential(d: nat, g: Growth): int {
    Price(d, g.level) + g.step
  }

  datatype Tally = Tally(snacks: int, fakes: int, melted: int)

  /** Counts the snacks eaten below the top level, the fakes that took a step away,
      and the growth lost to natural deaths. */
  ghost function Count(d: nat, g: Growth, e: Event): Tally {
    var h := Step(true, d, g, e);
    if g.ended || h.ended || (g.level >= MAX_LEVEL && !e.Melt?) then Tally(0, 0, 0)
    else match e
      case Snack => Tally(1, 0, 0)
      case Fake => Tally(0, if g.step > 0 then 1 else 0, 0)
      case Melt => Tally(0, 0, Potential(d, g) - Potential(d, h))
  }

  ghost function Counted(d: nat, events: seq<Event>): Tally {
    if events == [] then Tally(0, 0, 0)
    else
      var init := events[..|events| - 1];
      var t := Counted(d, init);
      var c := Count(d, Run(true, d, Summoned(d), init), events[|events| - 1]);
      Tally(t.snacks + c.snacks, t.fakes + c.fakes, t.melted + c.melted)
  }

  lemma StepPays(d: nat, g: Growth, e: Event)
    requires InForm(d, g) && !g.ended
    ensures var h := Step(true, d, g, e);
            var c := Count(d, g, e);
            && c.fakes >= 0 && c.melted >= 0
            && (!h.ended ==> Potential(d, h) == Potential(d, g) + c.snacks - c.fakes - c.melted)
  {
  }

  /** Conservation: what stands on the field is what was fed, less what fakes and deaths took. */
  lemma {:induction false} GrowthIsPaidFor(d: nat, events: seq<Event>)
    ensures var g := Run(true, d, Summoned(d), events);
            var t := Counted(d, events);
            && t.fakes >= 0 && t.melted >= 0
            && (!g.ended ==> Potential(d, g) == t.snacks - t.fakes - t.melted)
  {
    if events != [] {
      var init, e := events[..|events| - 1], events[|events| - 1];
      GrowthIsPaidFor(d, init);
      SnowmanMatchesCounters(d, init);
      var g := Run(true, d, Summoned(d), init);
      if !g.ended {
        StepPays(d, g, e);
      }
    }
  }

  /** A snowman is fully grown exactly if it has eaten 12 + 10d snacks, and one more for each
      step that a fake or a death took away; then it has eaten no more than that. */
  lemma {:induction false} FullGrowthPrice(d: nat, events: seq<Event>)
    ensures var g := Run(true, d, Summoned(d), events);
            var t := Counted(d, events);
            !g.ended ==>
              && (g.level == 5 <==> t.snacks - t.fakes - t.melted >= 12 + 10 * d)
              && (g.level == 5 ==> t.snacks == 12 + 10 * d + t.fakes + t.melted >= 12 + 10 * d)
  {
    GrowthIsPaidFor(d, events);
    SnowmanMatchesCounters(d, events);
    PriceOfFullGrowth(d);
    var g := Run(true, d, Summoned(d), events);
    if !g.ended && g.level < MAX_LEVEL {
      StillGrowing(d, g);
    }
  }

  /** Below the top level the full price is not reached. */
  lemma StillGrowing(d: nat, g: Growth)
    requires InForm(d, g) && g.level < MAX_LEVEL
    ensures Potential(d, g) < Price(d, MAX_LEVEL)
  {
    assert Price(d, 5) == Price(d, 4) + 3 + d * 4;
    assert Price(d, 4) == Price(d, 3) + 3 + d * 3;
    assert Price(d, 3) == Price(d, 2) + 3 + d * 2;
    assert Price(d, 2) == 3 + d * 1;
  }

  lemma PriceOfFullGrowth(d: nat)
    ensures Price(d, MAX_LEVEL) == 12 + 10 * d
  {
    assert Price(d, 5) == Price(d, 4) + 3 + d * 4;
    assert Price(d, 4) == Price(d, 3) + 3 + d * 3;
    assert Price(d, 3) == Price(d, 2) + 3 + d * 2;
    assert Price(d, 2) == 3 + d * 1;
  }

  /** The ids of the live snowman tell difficulty and level apart and are never Scrooge's,
      so killing a snowman cannot clear the event. */
  lemma {:induction false} SnowmanIsNeverScrooge(d: nat, events: seq<Event>, id: int)
    requires 1 <= d <= 3
    ensures var g := Run(true, d, Summoned(d), events);
            !g.ended && id in g.live ==>
              && id == 9400316 + 5 * d + g.level && !(9400319 <= id <= 9400321)
              && forall e: nat, level :: 1 <= e <= 3 && 1 <= level <= 5 && SnowmanId(e, level) == id
                   ==> e == d && level == g.level
  {
    SnowmanMatchesCounters(d, events);
  }

  // ----- tokens over whole runs -----

  ghost function Kills(d: nat, t: Tokens, kills: seq<Kill>): Tokens {
    if kills == [] then t
    else MonsterKilled(d, Kills(d, t, kills[..|kills| - 1]), kills[|kills| - 1])
  }

  const NO_TOKENS := Tokens(0, false, [], [])

  /** Ordinary kills made before the event is cleared, with somebody there to credit. */
  ghost function OrdinaryKills(d: nat, kills: seq<Kill>): nat {
    if kills == [] then 0
    else
      var init, k := kills[..|kills| - 1], kills[|kills| - 1];
      OrdinaryKills(d, init)
      + if !Kills(d, NO_TOKENS, init).cleared && !IsScrooge(k.mobid) && k.anyone then 1 else 0
  }

  /** A run of misses is never longer than five, so one token falls in every six kills. */
  lemma {:induction false} TokensKeepComing(d: nat, kills: seq<Kill>)
    ensures var t := Kills(d, NO_TOKENS, kills);
            && 0 <= t.missing <= 5
            && OrdinaryKills(d, kills) <= 6 * |t.drops| + t.missing
            && |t.drops| >= OrdinaryKills(d, kills) / 6
  {
    if kills != [] {
      TokensKeepComing(d, kills[..|kills| - 1]);
    }
  }

  /** A token that falls in spite of a missed draw is the sixth in a row and is genuine. */
  lemma ForcedTokenIsGenuine(d: nat, t: Tokens, kill: Kill)
    requires kill.miss && t.missing <= 5 && MonsterKilled(d, t, kill).drops != t.drops
    ensures t.missing == 5
    ensures MonsterKilled(d, t, kill) == t.(missing := 0, drops := t.drops + [4032094])
  {
  }

  /** The kills, up to the one that clears the event. */
  ghost function BeforeScrooge(kills: seq<Kill>): seq<Kill> {
    if kills == [] then []
    else if 9400319 <= kills[0].mobid <= 9400321 then []
    else [kills[0]] + BeforeScrooge(kills[1..])
  }

  lemma {:induction false} BeforeScroogeNext(kills: seq<Kill>)
    requires kills != []
    ensures var init, k := kills[..|kills| - 1], kills[|kills| - 1];
            BeforeScrooge(kills)
            == if BeforeScrooge(init) == init && !(9400319 <= k.mobid <= 9400321) then kills else BeforeScrooge(init)
    ensures |BeforeScrooge(kills)| <= |kills|
  {
    if |kills| > 1 {
      BeforeScroogeNext(kills[1..]);
      assert kills[1..][..|kills| - 2] == kills[..|kills| - 1][1..];
      assert kills == [kills[0]] + kills[1..];
      assert kills[..|kills| - 1] == [kills[0]] + kills[..|kills| - 1][1..];
    }
  }

  /** Scrooge alone clears the event, and is paid for once; after that nothing drops. */
  lemma {:induction false} ScroogeClearsOnce(d: nat, kills: seq<Kill>)
    ensures var t, u := Kills(d, NO_TOKENS, kills), BeforeScrooge(kills);
            && (t.cleared <==> u != kills)
            && t.bossRewards == (if t.cleared then [2 * d] else [])
            && u <= kills && !Kills(d, NO_TOKENS, u).cleared && t.drops == Kills(d, NO_TOKENS, u).drops
  {
    if kills != [] {
      var init := kills[..|kills| - 1];
      ScroogeClearsOnce(d, init);
      BeforeScroogeNext(kills);
    }
  }

  ghost predicate FakeDrawn(kill: Kill) {
    kill.anyone && !kill.miss && !kill.genuine
  }

  /** Kills before Scrooge whose token was drawn, and drawn as a fake. */
  ghost function FakesDrawn(kills: seq<Kill>): nat {
    if kills == [] then 0 else FakesDrawn(kills[..|kills| - 1]) + if FakeDrawn(kills[|kills| - 1]) then 1 else 0
  }

  ghost function HitsDrawn(kills: seq<Kill>): nat {
    if kills == [] then 0
    else HitsDrawn(kills[..|kills| - 1]) + if kills[|kills| - 1].anyone && !kills[|kills| - 1].miss then 1 else 0
  }

  /** Every drawn token falls, the fakes as fakes, and everything else that falls is genuine. */
  lemma {:induction false} TokensAreAsDrawn(d: nat, kills: seq<Kill>)
    requires BeforeScrooge(kills) == kills
    ensures var m := multiset(Kills(d, NO_TOKENS, kills).drops);
            && m[4032095] == FakesDrawn(kills)
            && |m| >= HitsDrawn(kills)
            && forall id :: id in m ==> id == 4032094 || id == 4032095
  {
    if kills != [] {
      BeforeScroogeNext(kills);
      ScroogeClearsOnce(d, kills[..|kills| - 1]);
      TokensAreAsDrawn(d, kills[..|kills| - 1]);
    }
  }

  /** The missed draws since a token last fell. */
  ghost function MissesSinceToken(d: nat, kills: seq<Kill>): nat {
    if kills == [] then 0
    else
      var init := kills[..|kills| - 1];
      if Kills(d, NO_TOKENS, kills).drops != Kills(d, NO_TOKENS, init).drops then 0
      else MissesSinceToken(d, init) + if kills[|kills| - 1].miss then 1 else 0
  }

  /** The counter holds them, up to five, so any token starts the count anew. */
  lemma {:induction false} MissesAreCounted(d: nat, kills: seq<Kill>)
    requires BeforeScrooge(kills) == kills
    ensures var n := MissesSinceToken(d, kills); Kills(d, NO_TOKENS, kills).missing == if n < 5 then n else 5
  {
    if kills != [] {
      BeforeScroogeNext(kills);
      ScroogeClearsOnce(d, kills[..|kills| - 1]);
      MissesAreCounted(d, kills[..|kills| - 1]);
    }
  }

  /** The bound is met: a player who misses every draw gets every sixth kill's token, genuine. */
  lemma {:induction false} UnluckiestRun(d: nat, kills: seq<Kill>)
    requires forall i :: 0 <= i < |kills| ==> kills[i].miss && kills[i].anyone && !IsScrooge(kills[i].mobid)
    ensures var t := Kills(d, NO_TOKENS, kills);
            && !t.cleared && |t.drops| == |kills| / 6 && t.missing == |kills| % 6
            && OrdinaryKills(d, kills) == |kills|
            && forall i :: 0 <= i < |t.drops| ==> t.drops[i] == 4032094
  {
    if kills != [] {
      UnluckiestRun(d, kills[..|kills| - 1]);
    }
  }
}
