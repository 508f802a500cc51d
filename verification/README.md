# Event and NPC scripts: a Dafny model

The repository is a game server whose party quests, ferry and shop dialogues are JavaScript
handlers on top of a Java host. This project models the handlers that are real state machines
and proves what holds over all their runs, for every player behaviour and every random draw.

| file | models |
|---|---|
| `Boat.dfy` | the ferry between Ellinia and Orbis: a self-rescheduling cycle, boarding, invasion |
| `Shuffling.dfy`, `MagatiaPQ.dfy` | the in-place shuffle, the linked stage 6 answers, the 26 books |
| `HolidayPQ.dfy` | the snowman's growth with its re-entrant kill, and the token pity counter |
| `Events.dfy` | the event instance of the host, and the eviction code that the scripts share |
| `Stages.dfy`, `PiratePQ.dfy`, `CWKPQ.dfy` | stages under timers, and rosters that are left one by one |
| `Reactors.dfy` | the rejection loop that deploys the Crimsonwood reactors |
| `PinkBean.dfy` | waves of guardians and the relic |
| `BossQuest.dfy` | 44 bosses, points, exits |
| `Crafting.dfy`, `Vicious.dfy`, `ThiefRefiner.dfy` | the two refining conversations |
| `JobAdvancement.dfy` | the warrior's second job dialogue |
| `AmoriaPQ.dfy` | party selection with a gender mask |
| `Basics.dfy` | the few notions that several of these share |

How it is built: a script that keeps state is a class with the script's fields. Each handler
is a method whose postcondition equates the new state with a function of the old one
(`View()` is the state as a value), and the theorems are lemmas about those functions over
arbitrary sequences of events. Random draws are arguments. `dafny verify dfyconfig.toml`
checks everything.

## Assumptions about the host

* Handlers are atomic, and run exactly when they are due.
* `getPlayers()` is a snapshot (src/main/java/scripting/event/EventInstanceManager.java:424-431).
  Only registered players report to an event, and a warp of a registered player calls
  `changedMap` before the move (src/main/java/client/MapleCharacter.java:1310-1324). Only
  members stand on the maps of their event.
* A party quest starts with its leader on the team, and the event's leader stays the party's
  (src/main/java/net/server/world/World.java:900-906). A leader who leaves the party disbands
  it, anybody else who leaves or is expelled is reported as having left
  (src/main/java/net/server/world/MapleParty.java:396-468); leaders do not expel themselves.
* A party leader who disconnects first hands the party to the member of the highest level on
  the same map, if there is one (src/main/java/client/MapleClient.java:764-785, 802); one who
  led the event hands that over with it. Only then is the disconnection reported (806). The
  leader of an expedition may lead no party, and then has nobody to hand over to. No file at
  this commit calls `recallEventInstance`, which would let a disconnected member back in.
* A dead monster is off the map when `monsterKilled` runs. A slain guardian leaves its statue
  behind; a snowman that dies of damage leaves its next lower form; Pink Bean can be hurt only
  after the last wave. Those are monster data outside the scripts. Somebody is registered
  while that battle runs.
* `killMonster` on a friendly monster calls `friendlyKilled` synchronously, as the comment at
  scripts/event/HolidayPQ_1.js:306 says. No Java file at this commit calls
  `EventInstanceManager.friendlyKilled`, so the model takes the notification as a parameter,
  and `AgreementNeedsNotification` says that all runs are right exactly if it happens.
* `allMonstersDead` is called when the last live monster of the event falls, each counted
  once. The code at this commit departs from that: a boss is registered by
  scripts/event/BossQuestHell.js:190 and again when it is spawned
  (src/main/java/server/maps/MapleMap.java:1889-1890), into a list from which a death removes
  one entry. A monster that revives into others has them registered before its own death is
  reported (src/main/java/server/life/MapleMonster.java:555-567). The calls of
  `EventInstanceManager.monsterKilled` from the map are likewise missing at this commit.
* A dialogue alone changes its player's inventory, mesos and job while it is open. Menus are
  answered with one of their entries; number prompts with any number for which the
  quantities and the fee fit the host's integers (the prompts offer 1 to 100).

## What turned out different from the intent

* "One proof of trial for one promotion" holds of every second job dialogue with a player if
  and only if the player is below level 30, carries at most one proof, or already has the
  letter: anybody else can go back from the page after the advancement and pay again
  (`JobAdvancement.OneProofOnlyIff`, `TurningBackTakesAnotherProof`). The instructor gives one
  proof per quest (scripts/npc/1072004.js:52-56), so a second must come from elsewhere, such
  as a trade.
* A leader who walks off or dies ends the pirate and Crimsonwood quests; one who disconnects
  beside another party member does not (`QuitterEndsTheEventIff` in `PiratePQ` and `CWKPQ`).
* The snowman on the field matches its counters in every run if and only if the host reports
  the script's own kill back (`HolidayPQ.AgreementNeedsNotification`).

## Model

| member | source | states |
|---|---|---|
| `Boat.BoatEvent.ScheduleNew` | scripts/event/Boat.js:39-46 | a cycle opens docked and boarding, without the enemy, with the gate and the takeoff due |
| `Boat.BoatEvent.OnStopEntry` | scripts/event/Boat.js:48-52 | closing the gate changes nothing but `entry` |
| `Boat.BoatEvent.OnTakeoff` | scripts/event/Boat.js:54-64 | the two warps put each waiting room aboard its own boat; arrival is due, and an approach if one was drawn, which `Boat.DrawnAttackHappens` follows through |
| `Boat.BoatEvent.OnArrived` | scripts/event/Boat.js:66-79 | the four warps land deck and cabin in the station they were bound for, every monster goes and the next cycle opens |
| `Boat.BoatEvent.OnApproach` | scripts/event/Boat.js:81-91 | the enemy is flagged and its crew due five seconds later |
| `Boat.BoatEvent.OnInvasion` | scripts/event/Boat.js:93-104 | two monsters on each boat |
| `Boat.Conversation.Action` | scripts/npc/1032008.js:14-47 | on the second page, who asks for the ride while `entry` holds is in the Ellinia waiting room and nowhere else, who has 10000 pays it and is in Orbis Station, nobody else moves, and either closes the dialogue; in every other case nothing changes |
| `Boat.StepStaysInCycle` | scripts/event/Boat.js:39-104 | every step by anybody keeps the queue that of one cycle in one phase, with the flags and monsters that belong to it; only the arrival, 15 minutes after the start of the cycle, opens the next |
| `Boat.CyclesAreFifteenMinutes` | scripts/event/Boat.js:14-46 | in every run, cycle k begins exactly 15k minutes after the start |
| `Boat.HandlersRunOnTime` | scripts/event/Boat.js:14-63 | in every run, in milliseconds: the gate closes 4 minutes after the cycle began, takeoff is at 5, arrival at 15, an approach between 8 and 9, an invasion five seconds later |
| `Boat.HandlerBoundary` | scripts/event/Boat.js:39-104 | always: `entry` implies `docked`, `haveBalrog` implies not `docked`, docked boats hold no monsters |
| `Boat.AttackOnlyInFlight` | scripts/event/Boat.js:54-104 | approach and invasion fire strictly between takeoff and arrival, the invasion exactly while the enemy is flagged |
| `Boat.DrawnAttackHappens` | scripts/event/Boat.js:54-104 | in every run, an attack drawn with delay a comes 180000 + a after the takeoff, stays flagged until the arrival, puts two monsters on each boat 5000 later, once, before the arrival at 600000; without a draw nothing but the arrival is due |
| `Boat.ArrivalEmptiesTheBoats` | scripts/event/Boat.js:66-70 | after an arrival both boats and both cabins are empty, and their passengers in the right station |
| `Boat.WarpKeepsPartition` | scripts/event/Boat.js:55-56 | a warp of everyone neither loses nor duplicates a character |
| `Boat.EveryoneStaysSomewhere` | scripts/event/Boat.js:48-79 | over every run each character is in exactly one room |
| `Boat.StepCarriesOrDelivers` | scripts/event/Boat.js:54-79 | a passenger who stays is kept on the way by every step and landed by the arrival |
| `Boat.PassengersAreDelivered` | scripts/event/Boat.js:39-79 | on both lines, whoever waits while the boats are docked and stays is at the destination at the next arrival, 10 to 15 minutes later, and the clock cannot pass 15 minutes before it |
| `Boat.BoardersAreDelivered` | scripts/npc/1032008.js:37-43 | boarding at Ellinia while `entry` holds puts the player in the Ellinia waiting room, and whoever then stays is in Orbis Station at the next arrival, 11 to 15 minutes later |
| `Boat.EveryRideCanArrive` | scripts/event/Boat.js:39-79 | on both lines, however the ride of a waiting passenger has gone so far, the handlers still queued can fire until the arrival, which delivers the passenger |
| `Shuffling.Shuffle` | scripts/event/MagatiaPQ_A.js:160-177 | the loop terminates and leaves in the array what the draws determine |
| `Shuffling.ShuffledPermutes` | scripts/event/MagatiaPQ_A.js:160-177 | every in-range draw sequence yields a permutation |
| `Shuffling.LastPlaceIsDrawn` | scripts/event/MagatiaPQ_A.js:160-177 | the place filled first gets the element that its draw points at |
| `Shuffling.DrawsReaching` | scripts/event/MagatiaPQ_A.js:160-177 | every rearrangement, also of repeated elements, comes out of some draws |
| `Shuffling.ShuffledDeterminesDraws` | scripts/event/MagatiaPQ_A.js:160-177 | on distinct elements two draw sequences never give the same order |
| `Shuffling.ShuffleIsBijective` | scripts/event/MagatiaPQ_A.js:160-177 | the draw sequences and the permutations correspond one to one |
| `MagatiaPQ.GenerateStg6Combo` | scripts/event/MagatiaPQ_A.js:179-204 | four answers of ten digits 0..3, each position using each digit once, spelled by the shuffled columns |
| `MagatiaPQ.LinkedCombosAreExactlyTheDrawn` | scripts/event/MagatiaPQ_A.js:179-204 | the generator reaches every such set of answers and nothing else, each from one set of draws |
| `MagatiaPQ.AfterSetup` | scripts/event/MagatiaPQ_A.js:206-238 | for every draw ten -1, seven 0, seven 1, one 2 and one 3 are stored |
| `MagatiaPQ.ShelvingsAreExactlyTheDrawn` | scripts/event/MagatiaPQ_A.js:209-210 | exactly the shelvings with those counts can come out |
| `HolidayPQ.HolidayEvent.Summon` | scripts/npc/9105004.js:139-145 | on a bare field, one snowman of the lowest form and level 1: the state in which every growth run begins |
| `HolidayPQ.HolidayEvent.KillMonster` | scripts/event/HolidayPQ_1.js:304-307 | killing a snowman removes it and, on a notifying host, runs `friendlyKilled` before returning; an unknown monster is ignored |
| `HolidayPQ.HolidayEvent.OnFriendlyKilled` | scripts/event/HolidayPQ_1.js:290-299 | the step is lost, and a level, or the event ends |
| `HolidayPQ.HolidayEvent.SnowmanEvolve` | scripts/event/HolidayPQ_1.js:301-320 | the old form is killed under the level raised by two and the next form appears; what is paid when is said by `HolidayPQ.FullGrowthIsRewarded` |
| `HolidayPQ.HolidayEvent.SnowmanSnack` | scripts/event/HolidayPQ_1.js:322-341 | a snack evolves, steps, or does nothing at the top level or without a snowman |
| `HolidayPQ.HolidayEvent.SnowmanSnackFake` | scripts/event/HolidayPQ_1.js:343-352 | a fake takes one step away at most, and none at the top level |
| `HolidayPQ.HolidayEvent.OnMonsterKilled` | scripts/event/HolidayPQ_1.js:257-286 | the drop decision with its miss counter, the boss branch with its reward and the swallowed exception |
| `HolidayPQ.SnowmanMatchesCounters` | scripts/event/HolidayPQ_1.js:290-341 | in every run exactly one snowman stands, of the id that difficulty and level give, with level 1..5 and step within its bound |
| `HolidayPQ.StepIsSimple` | scripts/event/HolidayPQ_1.js:290-352 | the re-entrant handlers refine a plain counter machine: when a snack steps or grows, a fake or a death takes away, a death ends the event, and a reward is due |
| `HolidayPQ.FullGrowthIsRewarded` | scripts/event/HolidayPQ_1.js:312-317 | in every run there are as many stage rewards, 2d - 1 each, as times level 5 was reached |
| `HolidayPQ.EvolveRaisesOneLevel` | scripts/event/HolidayPQ_1.js:301-332 | in spite of the transient level + 2 and the re-entrant kill, a snack at the full step raises the level by exactly one and keeps the agreement |
| `HolidayPQ.AgreementNeedsNotification` | scripts/event/HolidayPQ_1.js:301-341 | the agreement holds in all runs if and only if the host reports the kill back; otherwise 3 + d snacks break it |
| `HolidayPQ.SnacksBeforeSummoningAreLost` | scripts/event/HolidayPQ_1.js:322-341 | before the summoning no sequence of events changes anything |
| `HolidayPQ.GrowthIsPaidFor` | scripts/event/HolidayPQ_1.js:301-352 | growth on the field equals snacks eaten less fakes that took effect less growth lost to deaths, for every interleaving |
| `HolidayPQ.FullGrowthPrice` | scripts/event/HolidayPQ_1.js:301-352 | while the event lasts, level 5 is reached exactly if 12 + 10d snacks have been eaten beyond what was lost, and never costs more |
| `HolidayPQ.SnowmanIsNeverScrooge` | scripts/event/HolidayPQ_1.js:252-255 | the ids identify difficulty and level and never fall among Scrooge's |
| `HolidayPQ.TokensKeepComing` | scripts/event/HolidayPQ_1.js:257-286 | misses stay in 0..5 and at least one token falls per six ordinary kills |
| `HolidayPQ.ForcedTokenIsGenuine` | scripts/event/HolidayPQ_1.js:269-284 | a token that falls on a missed draw is the sixth in a row and genuine |
| `HolidayPQ.ScroogeClearsOnce` | scripts/event/HolidayPQ_1.js:252-265 | over every run the first Scrooge, and nothing else, clears the event, is paid 2d once, and ends the drops |
| `HolidayPQ.TokensAreAsDrawn` | scripts/event/HolidayPQ_1.js:267-284 | every hit drawn gives a token, the fake ones are exactly the hits drawn as fakes, and everything else that falls is genuine |
| `HolidayPQ.MissesAreCounted` | scripts/event/HolidayPQ_1.js:269-284 | the counter holds the missed draws since a token last fell, up to five |
| `HolidayPQ.UnluckiestRun` | scripts/event/HolidayPQ_1.js:269-284 | the bound is tight: all misses give exactly every sixth kill's token |
| `Events.TeamLacksIff` | src/main/java/scripting/event/EventInstanceManager.java:1129-1138 | on a departure the team lacks exactly if, cleared, nobody stays, or, uncleared, the leader goes or fewer than the minimum stay |
| `Events.FindHeir` | src/main/java/client/MapleClient.java:773-779 | the loop over the party finds the heir that `HeirIsHighest` characterises |
| `Events.HeirIsHighest` | src/main/java/client/MapleClient.java:773-779 | the heir is another member on the map, of a level that none of them exceeds, and the last such one |
| `Events.EventInstance.UnregisterPlayer` | src/main/java/scripting/event/EventInstanceManager.java:387-404 | exactly the quitter leaves the roster |
| `Events.EventInstance.PlayerExit` | scripts/event/PiratePQ.js:219-222 | unregister first, warp afterwards |
| `Events.EventInstance.End` | scripts/event/PiratePQ.js:319-325 | for any roster every member is evicted once, in order, to the exit map, and the event disposed of once |
| `Events.EventInstance.Drop` | scripts/event/PiratePQ.js:283-290 | the quitter is unregistered, and everybody else evicted if the team now lacks members |
| `Stages.StageIsLongestGatePrefix` | scripts/event/CWKPQ.js:253-292 | the stage is at least k if and only if the first k gates occur in order among all visits |
| `Stages.RunsOutInTime` | scripts/event/CWKPQ.js:254-291 | the timer always runs out within the times of the stages reached, so no visit is later than their total |
| `Stages.TimerRunsFromTheGate` | scripts/event/CWKPQ.js:253-292 | the timer is always the time of the stage, counted from the visit that opened its gate |
| `PiratePQ.PirateEvent.ChangedMapInside` | scripts/event/PiratePQ.js:230-259 | the nested tests advance exactly on the gate of the current stage, with its time |
| `PiratePQ.PirateEvent.ChangedMap` | scripts/event/PiratePQ.js:261-272 | inside the event a visit, outside a departure |
| `PiratePQ.PirateEvent.PlayerRevive` | scripts/event/PiratePQ.js:283-290 | a revived player has left |
| `PiratePQ.PirateEvent.PlayerDisconnected` | scripts/event/PiratePQ.js:293-299 | the quitter is evicted, with everyone else if the team lacks members |
| `PiratePQ.PirateEvent.LeftParty` | scripts/event/PiratePQ.js:301-307 | as above, but a leader as such is not missed, and a cleared event is left alone |
| `PiratePQ.PirateEvent.DisbandParty` | scripts/event/PiratePQ.js:309-313 | ends an uncleared event only |
| `PiratePQ.PirateEvent.LeaveParty` | src/main/java/net/server/world/MapleParty.java:396-433 | the host's choice: a leader's leaving disbands, a member's is reported |
| `PiratePQ.PirateEvent.ChangedLeader` | scripts/event/PiratePQ.js:274-279 | a new leader outside the event maps ends an uncleared event; the host records the leader in any case |
| `PiratePQ.PirateEvent.RemovePlayer` | src/main/java/client/MapleClient.java:787-807 | a disconnecting leader first hands the lead to a member on the map, then the quitter is evicted as above |
| `PiratePQ.PirateEvent.ClearPQ` | scripts/event/PiratePQ.js:327-336 | warping the team out unregisters each member through `changedMap`, and the last one ends the event, once |
| `PiratePQ.EveryRunIsOrderly` | scripts/event/PiratePQ.js:213-325 | every run has a team of at least three, with its leader, under a timer, or one disposal with each member unregistered once and warped at most once |
| `PiratePQ.QuitterEndsTheEventIff` | scripts/event/PiratePQ.js:261-313 | by every way out (walking off, dying, disconnecting, leaving the party) an uncleared event survives exactly if at least three stay and the quitter is not the leader, or disconnects with another member on the same map, who then leads; then exactly the quitter is gone |
| `PiratePQ.QuittersAreSentOut` | scripts/event/PiratePQ.js:219-325 | who disconnects or leaves the party is warped to 925100700, as is everybody else, in order, if the event ends by a departure |
| `PiratePQ.WholeTeamStepsInFull` | scripts/event/PiratePQ.js:213-336 | inside the event nobody is lost; a timeout or a leader from outside evicts everybody to 925100700, clearing to 925100600, with one disposal |
| `PiratePQ.StageFollowsVisits` | scripts/event/PiratePQ.js:230-272 | over every run the stage, the timer and the number of its restarts are those of the visits alone |
| `PiratePQ.StageCountsGates` | scripts/event/PiratePQ.js:230-272 | `curStage` is the longest prefix of the five gates visited in order, and the timer was restarted once for each of them |
| `PiratePQ.StageAndTimeLimit` | scripts/event/PiratePQ.js:190-259 | in every run the timer is due 4, 6, 6, 6, 6 or 8 minutes, by stage, after its gate was opened, and no run outlasts 36 minutes |
| `CWKPQ.CwkEvent.ChangedMap` | scripts/event/CWKPQ.js:242-293 | the switch advances exactly on the gate of the current stage, and outside visits are departures |
| `CWKPQ.CwkEvent.PlayerRevive` | scripts/event/CWKPQ.js:299-309 | a revived player has left |
| `CWKPQ.CwkEvent.PlayerDisconnected` | scripts/event/CWKPQ.js:311-321 | the quitter is unregistered without a warp, and everybody else evicted if the team now lacks members |
| `CWKPQ.CwkEvent.RemovePlayer` | src/main/java/client/MapleClient.java:787-807 | a disconnecting leader first hands the lead to a party member on the map, then the quitter is unregistered as above |
| `CWKPQ.CwkEvent.ClearPQ` | scripts/event/CWKPQ.js:350-353 | the timer stops and the event counts as cleared, and nobody moves |
| `CWKPQ.CwkEvent.PlayerEntry` | scripts/event/CWKPQ.js:219-223 | the entry map is the first map, or the gate passed last at stages 1 to 5, or the map before the last gate at stage 6; it is inside the event exactly for stages 0 to 7 |
| `CWKPQ.EveryRunIsSafe` | scripts/event/CWKPQ.js:238-353 | every run has six or more members under a timer, or somebody left in a cleared event, or one disposal with each member unregistered once and warped at most once |
| `CWKPQ.QuitterEndsTheEventIff` | scripts/event/CWKPQ.js:242-323 | a departure ends an uncleared expedition exactly if fewer than six stay, or the leader goes otherwise than by disconnecting with a party member on the same map, who then leads; a cleared one exactly if nobody stays; leaving the party changes nothing |
| `CWKPQ.OthersAreSentOut` | scripts/event/CWKPQ.js:242-344 | a quitter is not warped; if the expedition ends, everybody else is, in order, to 610030020 |
| `CWKPQ.WholeTeamStepsInFull` | scripts/event/CWKPQ.js:238-353 | visits, clearing and a new leader lose nobody; a timeout evicts everybody to 610030020, with one disposal |
| `CWKPQ.StageFollowsVisits` | scripts/event/CWKPQ.js:242-293 | over every run stage and restarts are those of the visits alone, and so is the timer until the quest is cleared |
| `CWKPQ.StageCountsGates` | scripts/event/CWKPQ.js:253-292 | in every run `current_instance` is the longest prefix of the six gates visited in order and counts the timer's restarts |
| `CWKPQ.StageAndTimeLimit` | scripts/event/CWKPQ.js:211-293 | until the quest is cleared the timer is due 2, 10, 10, 10, 20, 60 or 1 minutes, by stage, after its gate was opened, and nothing happens later than 113 minutes after setup |
| `Reactors.GenerateMapReactors` | scripts/event/CWKPQ.js:92-142 | under a fair oracle the loop ends, with the first attempt that is complete: eight different reactors, a skill for each of five jobs, one to three fakes |
| `Reactors.AcceptedIffComplete` | scripts/event/CWKPQ.js:103-119 | six different values among the job numbers mean exactly that |
| `Reactors.TablesAgree` | scripts/event/CWKPQ.js:94-130 | names and jobs agree cell by cell |
| `Reactors.NamesDiffer` | scripts/event/CWKPQ.js:123-130 | no reactor is listed in two slots |
| `Reactors.AcceptableChoiceExists` | scripts/event/CWKPQ.js:94-119 | an acceptable choice exists |
| `PinkBean.PinkBeanEvent.SpawnJrBoss` | scripts/event/PinkBeanBattle.js:229-240 | a statue becomes its guardian, or a guardian its statue |
| `PinkBean.PinkBeanEvent.StartWave` | scripts/event/PinkBeanBattle.js:276-283 | the loop wakes one seat per iteration and stops at a missing statue |
| `PinkBean.PinkBeanEvent.OnMonsterKilled` | scripts/event/PinkBeanBattle.js:242-274 | nothing before the last guardian of a wave, then the next wave or, at stage 5, the relic; Pink Bean clears the map |
| `PinkBean.PinkBeanEvent.OnPlayerDead` | scripts/event/PinkBeanBattle.js:145-159 | the fifth death, and no other, ends the battle |
| `PinkBean.WaveWakesStageGuardians` | scripts/event/PinkBeanBattle.js:276-283 | wave s wakes exactly s different guardians |
| `PinkBean.StepIsOrderly` | scripts/event/PinkBeanBattle.js:229-283 | every step keeps statue or guardian on each seat, one phase, and the kill count of the phase |
| `PinkBean.RelicDropsOnce` | scripts/event/PinkBeanBattle.js:251-273 | in every run exactly one phase holds, at most 15 guardians fall, and the relic has dropped once if and only if the 15th has |
| `PinkBean.BattleIsWonIn21Steps` | scripts/event/PinkBeanBattle.js:242-283 | a battle that is not called off has a next step as long as Pink Bean stands, and Pink Bean falls, with every monster, at the 21st step, neither earlier nor later |
| `BossQuest.BossQuestEvent.AllMonstersDead` | scripts/event/BossQuestHell.js:147-174 | points and number grow, and a spawn is scheduled while bosses are left |
| `BossQuest.BossQuestEvent.MonsterSpawn` | scripts/event/BossQuestHell.js:176-195 | looks up the current number |
| `BossQuest.BossQuestEvent.PlayerExit` | scripts/event/BossQuestHell.js:110-123 | points, departure, and disposal by the last member |
| `BossQuest.BossQuestEvent.ExitEverybody` | scripts/event/BossQuestHell.js:103-108 | a roster of any size is paid and sent out in order, and the event disposed of once if anybody was in |
| `BossQuest.PointsAreTriangular` | scripts/event/BossQuestHell.js:147-160 | after k reports the points are 3k(k+1)/2, in any run |
| `BossQuest.BossesComeInOrder` | scripts/event/BossQuestHell.js:147-195 | in every run, whatever company a boss brings in or revives into, every lookup is inside the list and in its order, and the run can go on exactly until the 44th boss is down |
| `BossQuest.FullScore` | scripts/event/BossQuestHell.js:147-174 | no run exceeds 2970 points, and it has them exactly when all 44 bosses are down |
| `BossQuest.EverybodyIsPaidOnce` | scripts/event/BossQuestHell.js:103-145 | every member and nobody else is awarded and sent to 220000000, once, with one disposal |
| `BossQuest.LastOneClosesTheEvent` | scripts/event/BossQuestHell.js:110-123 | one who leaves is sent out, and the event disposed of exactly if nobody stays |
| `Crafting.Customer.HasMaterials` | scripts/npc/1012002.js:159-165 | the early-exit loop decides whether every material is there |
| `Crafting.Customer.TakeMaterials` | scripts/npc/1012002.js:181-185 | exactly the needed quantities go, and no count falls below zero on the way |
| `Crafting.ExchangeItemised` | scripts/npc/1012002.js:180-189 | item by item: materials, product, mesos, and nothing else |
| `Crafting.AffordsIff` | scripts/npc/1012002.js:150-189 | the checks pass exactly if the exchange leaves no count and no mesos below zero |
| `Vicious.TablesAligned` | scripts/npc/1012002.js:59-129 | items, materials, quantities and costs have the same rows |
| `Vicious.RowIsSound` | scripts/npc/1012002.js:96-129 | in every row the shapes agree and no item occurs twice |
| `Vicious.RepliesKeepReady` | scripts/npc/1012002.js:52-149 | at the last page the recipe is the prompted row and the quantity at least one |
| `Vicious.Conversation.Action` | scripts/npc/1012002.js:52-196 | each reply turns the page as specified; only a yes at the last page with room, mesos and materials changes the purse |
| `Vicious.Conversation.Exchange` | scripts/npc/1012002.js:150-195 | all or nothing, with the product count of arrows, screws and the rest |
| `Vicious.ConversationIsAtomic` | scripts/npc/1012002.js:52-196 | in terms of the replies alone: type, entry and yes exchange that row of that type once, materials as many times as the number answered says, with 1000 to 800 arrows or packs of 15 screws; any other replies, or too little to pay, change nothing |
| `ThiefRefiner.TablesAligned` | scripts/npc/1052002.js:119-176 | as for the other refiner |
| `ThiefRefiner.RowIsSound` | scripts/npc/1052002.js:119-176 | as for the other refiner |
| `ThiefRefiner.RepliesKeepReady` | scripts/npc/1052002.js:52-204 | with the skipped page for equipment, the recipe at the last page is the prompted row |
| `ThiefRefiner.Conversation.Action` | scripts/npc/1052002.js:52-254 | each reply turns the page as specified; only the final yes can change the purse |
| `ThiefRefiner.Conversation.Exchange` | scripts/npc/1052002.js:205-253 | all or nothing, room checked first |
| `ThiefRefiner.ConversationIsAtomic` | scripts/npc/1052002.js:52-254 | in terms of the replies alone: type, entry and yes exchange that row of that type once, materials as many times as the number answered says, screws in packs of 15; any other replies, or too little to pay, change nothing |
| `JobAdvancement.Conversation.Start` | scripts/npc/1022000.js:51-59 | the second job branch of the opening |
| `JobAdvancement.Conversation.Action` | scripts/npc/1022000.js:76-117 | how replies move the status, restart, close, or turn the page |
| `JobAdvancement.Conversation.TurnPage` | scripts/npc/1022000.js:145-199 | what each page of the second job branch shows and does |
| `JobAdvancement.DialoguePromotesAtMostOnce` | scripts/npc/1022000.js:76-199 | every legal dialogue leaves the player untouched but for the letter, or promoted once to the chosen job |
| `JobAdvancement.OpensIff` | scripts/npc/1022000.js:51-59 | who gets beyond the greeting |
| `JobAdvancement.ReplyClosesIff` | scripts/npc/1022000.js:76-199 | which reply on which page ends the dialogue |
| `JobAdvancement.LetterIsGivenIff` | scripts/npc/1022000.js:152-166 | a single letter, on the second page, to a candidate with neither proof nor letter and room for it |
| `JobAdvancement.JobIsChosenOnce` | scripts/npc/1022000.js:167-183 | only the fourth entry leads to the choice; it is added to the default once and never returned to |
| `JobAdvancement.ProofPaysForPromotion` | scripts/npc/1022000.js:184-193 | a proof goes exactly if the job changes, which happens once; more than one can go only from a candidate with two proofs and no letter |
| `JobAdvancement.TurningBackTakesAnotherProof` | scripts/npc/1022000.js:81-83 | a legal dialogue that costs two proofs |
| `JobAdvancement.OneProofOnlyIff` | scripts/npc/1022000.js:76-193 | all dialogues with a player cost at most one proof if and only if the player is below level 30, carries at most one proof or has the letter |
| `JobAdvancement.PromotionIsReachableIff` | scripts/npc/1022000.js:51-193 | some dialogue promotes a warrior, to whichever of the three jobs, if and only if the level is 30 or more, a proof is there and the letter is not |
| `AmoriaPQ.GetEligibleParty` | scripts/event/AmoriaPQ.js:87-111 | the qualifying members in order if they are a team with a leader, both genders, the right size and all married, and nobody otherwise |
| `AmoriaPQ.QualifiedKeepsExactly` | scripts/event/AmoriaPQ.js:92-105 | the selection neither loses nor doubles a member |
| `AmoriaPQ.IsTeamAllCouple` | scripts/event/AmoriaPQ.js:162-175 | the early-exit loop decides whether everyone has a partner on the team |

## Left out

- Cabin clean-up in `stopentry`: only boxes and dropped items are concerned.
- The Orbis side of boarding and the map scripts of the boats, which look up an event named "Boats" that no file defines.
- Rewards, experience, buffs and messages, except stage rewards, points and dropped tokens.
- Pink Bean's own forms and the expedition check on departures.
- `removePlayer` of the boss quest: `playerExit` without a warp.
- The shuffle of reactor positions inside the host.
- The Hall of Fame offer and the first and third job branches of the warrior instructor.
- Near-copies of the modelled scripts (the other Holiday, Magatia and boss quest variants).
- HolidayPQ.HolidayEvent.OnFriendlyKilled: the eviction at the end is recorded as a flag; `Events.EventInstance.End` proves it.
- ThiefRefiner.Conversation.Prepare: one method stands for the repeated assignments of a row to item, materials and cost.
- Reactors.GenerateMapReactors: the loop that retries forever takes a finite list of attempts that contains an acceptable one.
