/** scripts/event/Boat.js with the boarding guard of scripts/npc/1032008.js: a ferry whose
    handlers schedule each other forever.

    The host is a clock, a queue of due handlers and one set of characters per map. A
    handler runs exactly when it is due. Everything players do on their own (walking,
    other NPCs, logging on and off into or from "Elsewhere") is an arbitrary relocation. */
module Boat {
  import opened Basics

  datatype Place =
    | ElliniaDock      // 101000300
    | ElliniaWaiting   // 101000301, Ellinia_btf
    | OrbisDock        // 200000111
    | OrbisWaiting     // 200000112, Orbis_btf
    | OrbisStation     // 200000100
    | BoatToOrbis      // 200090010
    | OrbisCabin       // 200090011
    | BoatToEllinia    // 200090000
    | ElliniaCabin     // 200090001
    | Elsewhere

  datatype Handler = StopEntry | Takeoff | Arrived | Approach | Invasion

  datatype Entry = Entry(due: int, handler: Handler)

  type Rooms = map<Place, set<Player>>

  /** The time, the queue, the three properties and the monsters on the two boats. */
  datatype Schedule = Schedule(
    now: int,
    queue: seq<Entry>,
    docked: bool,
    entry: bool,
    haveBalrog: bool,
    mobsToOrbis: nat,
    mobsToEllinia: nat)

  datatype Ferry = Ferry(plan: Schedule, rooms: Rooms)

  const CLOSE_TIME := 4 * 60 * 1000
  const BEGIN_TIME := 5 * 60 * 1000
  const RIDE_TIME := 10 * 60 * 1000
  const INVASION_START_TIME := 3 * 60 * 1000
  const INVASION_DELAY_TIME := 1 * 60 * 1000
  const INVASION_DELAY := 5 * 1000
  const CYCLE := BEGIN_TIME + RIDE_TIME
  const FEE := 10000

  // ----- what the handlers do to the schedule -----

  ghost function Scheduled(s: Schedule, h: Handler, delay: int): Schedule {
    s.(queue := s.queue + [Entry(s.now + delay, h)])
  }

  ghost function NewCycle(s: Schedule): Schedule {
    Scheduled(Scheduled(s.(docked := true, entry := true, haveBalrog := false), StopEntry, CLOSE_TIME),
              Takeoff, BEGIN_TIME)
  }

  /** attack is None if no invasion was drawn, and otherwise the random part of its delay. */
  ghost function TakenOff(s: Schedule, attack: Option<nat>): Schedule {
    var flying := s.(docked := false);
    var drawn := if attack.Some? then Scheduled(flying, Approach, INVASION_START_TIME + attack.value) else flying;
    Scheduled(drawn, Arrived, RIDE_TIME)
  }

  ghost function HasArrived(s: Schedule): Schedule {
    NewCycle(s.(mobsToOrbis := 0, mobsToEllinia := 0, haveBalrog := false))
  }

  ghost function Approached(s: Schedule): Schedule {
    Scheduled(s.(haveBalrog := true), Invasion, INVASION_DELAY)
  }

  ghost function Invaded(s: Schedule): Schedule {
    s.(mobsToOrbis := s.mobsToOrbis + 2, mobsToEllinia := s.mobsToEllinia + 2)
  }

  // ----- what the handlers do to the characters -----

  predicate Complete(rooms: Rooms) {
    forall a: Place :: a in rooms
  }

  function WarpAll(rooms: Rooms, source: Place, target: Place): (r: Rooms)
    requires Complete(rooms)
    ensures Complete(r)
  {
    map a | a in rooms ::
      if a == source then {} else if a == target then rooms[target] + rooms[source] else rooms[a]
  }

  function Relocated(rooms: Rooms, p: Player, target: Place): (r: Rooms)
    requires Complete(rooms)
    ensures Complete(r)
  {
    map a | a in rooms :: if a == target then rooms[a] + {p} else rooms[a] - {p}
  }

  /** p is in the target room and in no other, and nobody else has moved. */
  ghost predicate MovedTo(before: Rooms, after: Rooms, p: Player, target: Place)
    requires Complete(before) && Complete(after)
  {
    && (forall a: Place :: p in after[a] <==> a == target)
    && (forall a: Place, q :: q != p ==> (q in after[a] <==> q in before[a]))
  }

  /** Both waiting rooms empty onto their boats. */
  ghost function Departed(rooms: Rooms): (r: Rooms)
    requires Complete(rooms)
    ensures Complete(r)
  {
    map a | a in rooms ::
      match a
      case BoatToOrbis => rooms[BoatToOrbis] + rooms[ElliniaWaiting]
      case BoatToEllinia => rooms[BoatToEllinia] + rooms[OrbisWaiting]
      case ElliniaWaiting => {}
      case OrbisWaiting => {}
      case _ => rooms[a]
  }

  lemma WarpsDepart(rooms: Rooms)
    requires Complete(rooms)
    ensures WarpAll(WarpAll(rooms, OrbisWaiting, BoatToEllinia), ElliniaWaiting, BoatToOrbis) == Departed(rooms)
  {
  }

  /** Everyone on the boat or in its cabin stands in the station they were bound for. */
  ghost function Emptied(rooms: Rooms, boat: Place, cabin: Place, station: Place): (r: Rooms)
    requires Complete(rooms)
    ensures Complete(r)
  {
    map a | a in rooms ::
      if a == station then rooms[station] + rooms[boat] + rooms[cabin]
      else if a == boat || a == cabin then {}
      else rooms[a]
  }

  lemma TwoWarpsEmpty(rooms: Rooms, boat: Place, cabin: Place, station: Place)
    requires Complete(rooms) && station != boat && station != cabin && boat != cabin
    ensures WarpAll(WarpAll(rooms, boat, station), cabin, station) == Emptied(rooms, boat, cabin, station)
  {
  }

  ghost function Landed(rooms: Rooms): (r: Rooms)
    requires Complete(rooms)
    ensures Complete(r)
  {
    Emptied(Emptied(rooms, BoatToOrbis, OrbisCabin, OrbisStation), BoatToEllinia, ElliniaCabin, ElliniaDock)
  }

  class BoatEvent {
    var now: int
    var queue: seq<Entry>
    var docked: bool
    var entry: bool
    var haveBalrog: bool
    var mobsToOrbis: nat
    var mobsToEllinia: nat
    var rooms: Rooms

    ghost function Plan(): Schedule
      reads this
    {
      Schedule(now, queue, docked, entry, haveBalrog, mobsToOrbis, mobsToEllinia)
    }

    ghost function View(): Ferry
      reads this
    {
      Ferry(Plan(), rooms)
    }

    constructor (now: int, rooms: Rooms)
      ensures View() == Ferry(Initial(now), rooms)
    {
      this.now, queue, this.rooms := now, [], rooms;
      docked, entry, haveBalrog, mobsToOrbis, mobsToEllinia := true, false, false, 0, 0;
      new;
      ScheduleNew();
    }

    method Enqueue(h: Handler, delay: int)
      modifies `queue
      ensures Plan() == Scheduled(old(Plan()), h, delay)
    {
      queue := queue + [Entry(now + delay, h)];
    }

    method WarpEveryone(source: Place, target: Place)
      requires Complete(rooms) && source != target
      modifies `rooms
      ensures rooms == WarpAll(old(rooms), source, target)
    {
      rooms := WarpAll(rooms, source, target);
    }

    method ScheduleNew()
      modifies `queue, `docked, `entry, `haveBalrog
      ensures View() == old(View()).(plan := NewCycle(old(Plan())))
    {
      docked := true;
      entry := true;
      haveBalrog := false;
      Enqueue(StopEntry, CLOSE_TIME);
      Enqueue(Takeoff, BEGIN_TIME);
    }

    method OnStopEntry()
      modifies `entry
      ensures View() == old(View()).(plan := old(Plan()).(entry := false))
    {
      entry := false;
    }

    method Embark()
      requires Complete(rooms)
      modifies `rooms
      ensures rooms == Departed(old(rooms))
    {
      WarpsDepart(rooms);
      WarpEveryone(OrbisWaiting, BoatToEllinia);
      WarpEveryone(ElliniaWaiting, BoatToOrbis);
    }

    method OnTakeoff(attack: Option<nat>)
      requires Complete(rooms)
      modifies `queue, `docked, `rooms
      ensures View() == Ferry(TakenOff(old(Plan()), attack), Departed(old(rooms)))
    {
      Embark();
      docked := false;
      if attack.Some? {
        Enqueue(Approach, INVASION_START_TIME + attack.value);
      }
      Enqueue(Arrived, RIDE_TIME);
    }

    method Disembark(boat: Place, cabin: Place, station: Place)
      requires Complete(rooms) && station != boat && station != cabin && boat != cabin
      modifies `rooms
      ensures rooms == Emptied(old(rooms), boat, cabin, station)
    {
      TwoWarpsEmpty(rooms, boat, cabin, station);
      WarpEveryone(boat, station);
      WarpEveryone(cabin, station);
    }

    method LandBoth()
      requires Complete(rooms)
      modifies `rooms
      ensures rooms == Landed(old(rooms))
    {
      Disembark(BoatToOrbis, OrbisCabin, OrbisStation);
      Disembark(BoatToEllinia, ElliniaCabin, ElliniaDock);
    }

    /** The second half of arrived: the monsters go and the next cycle is scheduled. */
    method ClearAndSchedule()
      modifies `queue, `docked, `entry, `haveBalrog, `mobsToOrbis, `mobsToEllinia
      ensures Plan() == HasArrived(old(Plan()))
    {
      mobsToOrbis := 0;
      mobsToEllinia := 0;
      haveBalrog := false;
      ScheduleNew();
    }

    method OnArrived()
      requires Complete(rooms)
      modifies this
      ensures View() == Ferry(HasArrived(old(Plan())), Landed(old(rooms)))
    {
      LandBoth();
      ClearAndSchedule();
    }

    method OnApproach()
      modifies `queue, `haveBalrog
      ensures View() == old(View()).(plan := Approached(old(Plan())))
    {
      haveBalrog := true;
      Enqueue(Invasion, INVASION_DELAY);
    }

    method OnInvasion()
      modifies `mobsToOrbis, `mobsToEllinia
      ensures View() == old(View()).(plan := Invaded(old(Plan())))
    {
      mobsToEllinia := mobsToEllinia + 1;
      mobsToEllinia := mobsToEllinia + 1;
      mobsToOrbis := mobsToOrbis + 1;
      mobsToOrbis := mobsToOrbis + 1;
    }
  }

  /** The conversation with Cherry. A reply either advances or steps back the status; the
      second page acts and closes the conversation. */
  class Conversation {
    var status: int
    var mesos: nat
    var closed: bool
    const player: Player

    constructor (player: Player, mesos: nat)
      ensures this.player == player && this.mesos == mesos && status == 0 && !closed
    {
      this.player, this.mesos, status, closed := player, mesos, 0, false;
    }

    method Action(boat: BoatEvent, mode: int, selection: int)
      requires !closed && Complete(boat.rooms)
      modifies this, boat`rooms
      ensures status == old(status) + if mode == 1 then 1 else -1
      ensures closed <==> status == 1
      ensures Complete(boat.rooms)
      ensures boat.rooms == if status != 1 then old(boat.rooms)
                            else if selection == 0 then PaidFor(old(boat.rooms), player, old(mesos))
                            else Boarded(boat.entry, old(boat.rooms), player)
      ensures var rides := status == 1 && selection != 0 && boat.entry;
              var pays := status == 1 && selection == 0 && old(mesos) >= 10000;
              && mesos == old(mesos) - (if pays then 10000 else 0)
              && (rides ==> MovedTo(old(boat.rooms), boat.rooms, player, ElliniaWaiting))
              && (pays ==> MovedTo(old(boat.rooms), boat.rooms, player, OrbisStation))
              && (!rides && !pays ==> boat.rooms == old(boat.rooms))
    {
      if mode == 1 {
        status := status + 1;
      } else {
        status := status - 1;
      }
      if status == 1 {
        if selection == 0 {
          if mesos >= FEE {
            mesos := mesos - FEE;
            boat.rooms := Relocated(boat.rooms, player, OrbisStation);
          }
        } else {
          if boat.entry {
            boat.rooms := Relocated(boat.rooms, player, ElliniaWaiting);
          }
        }
        closed := true;
      }
    }
  }

  ghost function Boarded(entry: bool, rooms: Rooms, p: Player): (r: Rooms)
    requires Complete(rooms)
    ensures Complete(r)
  {
    if entry then Relocated(rooms, p, ElliniaWaiting) else rooms
  }

  ghost function PaidFor(rooms: Rooms, p: Player, mesos: nat): (r: Rooms)
    requires Complete(rooms)
    ensures Complete(r)
  {
    if mesos >= FEE then Relocated(rooms, p, OrbisStation) else rooms
  }

  ghost function Initial(now: int): Schedule {
    NewCycle(Schedule(now, [], true, false, false, 0, 0))
  }

  // ----- steps -----

  datatype Step =
    | Tick(until: int)
    | Fire(i: nat, attack: Option<nat>)
    | Board(p: Player)
    | Pay(p: Player, mesos: nat)
    | Travel(p: Player, to: Place)
    | Slay(toOrbis: bool)

  /** Time never skips a due handler, and the random part of the delay is below a minute. */
  ghost predicate Legal(s: Schedule, step: Step) {
    match step
    case Tick(until) => s.now <= until && forall i :: 0 <= i < |s.queue| ==> until <= s.queue[i].due
    case Fire(i, attack) =>
      i < |s.queue| && s.queue[i].due == s.now && (attack.Some? ==> attack.value < INVASION_DELAY_TIME)
    case Slay(toOrbis) => if toOrbis then s.mobsToOrbis > 0 else s.mobsToEllinia > 0
    case _ => true
  }

  ghost predicate Fires(s: Schedule, step: Step, h: Handler)
    requires Legal(s, step)
  {
    step.Fire? && s.queue[step.i].handler == h
  }

  /** The schedule after a step; what characters do does not touch it. */
  ghost function Planned(s: Schedule, step: Step): Schedule
    requires Legal(s, step)
  {
    match step
    case Tick(until) => s.(now := until)
    case Fire(i, attack) =>
      var t := s.(queue := s.queue[..i] + s.queue[i + 1..]);
      (match s.queue[i].handler
       case StopEntry => t.(entry := false)
       case Takeoff => TakenOff(t, attack)
       case Arrived => HasArrived(t)
       case Approach => Approached(t)
       case Invasion => Invaded(t))
    case Slay(toOrbis) =>
      if toOrbis then s.(mobsToOrbis := s.mobsToOrbis - 1) else s.(mobsToEllinia := s.mobsToEllinia - 1)
    case _ => s
  }

  /** The characters after a step. */
  ghost function Moved(s: Schedule, rooms: Rooms, step: Step): (r: Rooms)
    requires Legal(s, step) && Complete(rooms)
    ensures Complete(r)
  {
    if Fires(s, step, Takeoff) then Departed(rooms)
    else if Fires(s, step, Arrived) then Landed(rooms)
    else match step
      case Board(p) => Boarded(s.entry, rooms, p)
      case Pay(p, mesos) => PaidFor(rooms, p, mesos)
      case Travel(p, to) => Relocated(rooms, p, to)
      case _ => rooms
  }

  // ----- what every step keeps -----

  ghost predicate Boarding(s: Schedule, t: int) {
    && s.queue == [Entry(t + CLOSE_TIME, StopEntry), Entry(t + BEGIN_TIME, Takeoff)]
    && t <= s.now <= t + CLOSE_TIME
    && s.docked && s.entry && !s.haveBalrog && s.mobsToOrbis == s.mobsToEllinia == 0
  }

  ghost predicate Closed(s: Schedule, t: int) {
    && s.queue == [Entry(t + BEGIN_TIME, Takeoff)]
    && t + CLOSE_TIME <= s.now <= t + BEGIN_TIME
    && s.docked && !s.entry && !s.haveBalrog && s.mobsToOrbis == s.mobsToEllinia == 0
  }

  ghost predicate Flying(s: Schedule, t: int) {
    && !s.docked && !s.entry && t + BEGIN_TIME <= s.now <= t + CYCLE
    && (!s.haveBalrog ==> s.mobsToOrbis == s.mobsToEllinia == 0)
    && s.mobsToOrbis <= 2 && s.mobsToEllinia <= 2
    && (s.queue == [Entry(t + CYCLE, Arrived)] || Hunted(s, t) || Overtaken(s, t))
  }

  /** The enemy ship is on its way: it comes between three and four minutes after takeoff. */
  ghost predicate Hunted(s: Schedule, t: int) {
    && |s.queue| == 2 && s.queue[0].handler == Approach && s.queue[1] == Entry(t + CYCLE, Arrived)
    && t + BEGIN_TIME + INVASION_START_TIME <= s.queue[0].due
       < t + BEGIN_TIME + INVASION_START_TIME + INVASION_DELAY_TIME
    && s.now <= s.queue[0].due && !s.haveBalrog
  }

  /** The enemy ship is alongside, and boards five seconds after it came. */
  ghost predicate Overtaken(s: Schedule, t: int) {
    && |s.queue| == 2 && s.queue[0] == Entry(t + CYCLE, Arrived) && s.queue[1].handler == Invasion
    && t + BEGIN_TIME + INVASION_START_TIME + INVASION_DELAY <= s.queue[1].due
       < t + BEGIN_TIME + INVASION_START_TIME + INVASION_DELAY_TIME + INVASION_DELAY
    && s.now <= s.queue[1].due && s.haveBalrog && s.mobsToOrbis == s.mobsToEllinia == 0
  }

  /** The cycle that began at time t is in one of its three phases. */
  ghost predicate InCycle(s: Schedule, t: int) {
    Boarding(s, t) || Closed(s, t) || Flying(s, t)
  }

  lemma BoardingFires(s: Schedule, step: Step, t: int)
    requires Boarding(s, t) && Legal(s, step) && step.Fire?
    ensures Closed(Planned(s, step), t) && !Fires(s, step, Arrived)
  {
  }

  lemma ClosedFires(s: Schedule, step: Step, t: int)
    requires Closed(s, t) && Legal(s, step) && step.Fire?
    ensures Flying(Planned(s, step), t) && !Fires(s, step, Arrived)
  {
  }

  lemma AttackFires(s: Schedule, step: Step, t: int)
    requires Flying(s, t) && |s.queue| == 2 && Legal(s, step) && step.Fire?
    ensures Flying(Planned(s, step), t) && !Fires(s, step, Arrived)
  {
  }

  lemma ArrivalFires(s: Schedule, step: Step, t: int)
    requires Flying(s, t) && |s.queue| == 1 && Legal(s, step) && step.Fire?
    ensures Fires(s, step, Arrived) && s.now == t + CYCLE && Boarding(Planned(s, step), t + CYCLE)
  {
  }

  /** No step leaves the cycle but its arrival, which opens the next one. */
  lemma {:induction false} StepStaysInCycle(s: Schedule, step: Step, t: int)
    requires InCycle(s, t) && Legal(s, step)
    ensures if Fires(s, step, Arrived) then s.now == t + CYCLE && Boarding(Planned(s, step), t + CYCLE)
            else InCycle(Planned(s, step), t)
  {
    if step.Fire? {
      if Boarding(s, t) {
        BoardingFires(s, step, t);
      } else if Closed(s, t) {
        ClosedFires(s, step, t);
      } else if |s.queue| == 2 {
        AttackFires(s, step, t);
      } else {
        ArrivalFires(s, step, t);
      }
    }
  }

  // ----- characters are neither lost nor duplicated -----

  /** Everyone is in exactly one room. */
  ghost predicate Partition(rooms: Rooms, everyone: set<Player>)
    requires Complete(rooms)
  {
    && (forall p, a: Place, b: Place :: p in rooms[a] && p in rooms[b] ==> a == b)
    && (forall p, a: Place :: p in rooms[a] ==> p in everyone)
    && (forall p :: p in everyone ==> exists a: Place :: p in rooms[a])
  }

  lemma MovingKeepsPartition(rooms: Rooms, r: Rooms, source: Place, target: Place, everyone: set<Player>)
    requires Complete(rooms) && Complete(r) && source != target && Partition(rooms, everyone)
    requires forall p, a: Place {:trigger p in r[a]} ::
               p in r[a] <==> a != source && (p in rooms[a] || (a == target && p in rooms[source]))
    ensures Partition(r, everyone)
  {
    forall p | p in everyone
      ensures exists a: Place :: p in r[a]
    {
      var a: Place :| p in rooms[a];
      assert p in r[if a == source then target else a];
    }
  }

  /** The room that holds p after a warp is determined by the room that held p before. */
  lemma WarpMoves(rooms: Rooms, source: Place, target: Place, p: Player, a: Place)
    requires Complete(rooms) && source != target
    ensures p in WarpAll(rooms, source, target)[a]
            <==> a != source && (p in rooms[a] || (a == target && p in rooms[source]))
  {
  }

  lemma WarpKeepsPartition(rooms: Rooms, source: Place, target: Place, everyone: set<Player>)
    requires Complete(rooms) && source != target && Partition(rooms, everyone)
    ensures Partition(WarpAll(rooms, source, target), everyone)
  {
    var r := WarpAll(rooms, source, target);
    forall p, a: Place
      ensures p in r[a] <==> a != source && (p in rooms[a] || (a == target && p in rooms[source]))
    {
      WarpMoves(rooms, source, target, p, a);
    }
    MovingKeepsPartition(rooms, r, source, target, everyone);
  }

  lemma RelocationKeepsPartition(rooms: Rooms, p: Player, target: Place, everyone: set<Player>)
    requires Complete(rooms) && p in everyone && Partition(rooms, everyone)
    ensures Partition(Relocated(rooms, p, target), everyone)
  {
    var r := Relocated(rooms, p, target);
    forall q | q in everyone
      ensures exists a: Place :: q in r[a]
    {
      var a: Place :| q in rooms[a];
      assert q in r[if q == p then target else a];
    }
  }

  lemma DepartureKeepsPartition(rooms: Rooms, everyone: set<Player>)
    requires Complete(rooms) && Partition(rooms, everyone)
    ensures Partition(Departed(rooms), everyone)
  {
    WarpsDepart(rooms);
    WarpKeepsPartition(rooms, OrbisWaiting, BoatToEllinia, everyone);
    WarpKeepsPartition(WarpAll(rooms, OrbisWaiting, BoatToEllinia), ElliniaWaiting, BoatToOrbis, everyone);
  }

  lemma EmptyingKeepsPartition(rooms: Rooms, boat: Place, cabin: Place, station: Place, everyone: set<Player>)
    requires Complete(rooms) && station != boat && station != cabin && boat != cabin && Partition(rooms, everyone)
    ensures Partition(Emptied(rooms, boat, cabin, station), everyone)
  {
    TwoWarpsEmpty(rooms, boat, cabin, station);
    WarpKeepsPartition(rooms, boat, station, everyone);
    WarpKeepsPartition(WarpAll(rooms, boat, station), cabin, station, everyone);
  }

  lemma LandingKeepsPartition(rooms: Rooms, everyone: set<Player>)
    requires Complete(rooms) && Partition(rooms, everyone)
    ensures Partition(Landed(rooms), everyone)
  {
    EmptyingKeepsPartition(rooms, BoatToOrbis, OrbisCabin, OrbisStation, everyone);
    EmptyingKeepsPartition(Emptied(rooms, BoatToOrbis, OrbisCabin, OrbisStation),
                           BoatToEllinia, ElliniaCabin, ElliniaDock, everyone);
  }

  ghost predicate ByMember(step: Step, everyone: set<Player>) {
    step.Board? || step.Pay? || step.Travel? ==> step.p in everyone
  }

  lemma {:induction false} StepKeepsPartition(s: Schedule, rooms: Rooms, step: Step, everyone: set<Player>)
    requires Legal(s, step) && Complete(rooms) && ByMember(step, everyone) && Partition(rooms, everyone)
    ensures Partition(Moved(s, rooms, step), everyone)
  {
    if Fires(s, step, Takeoff) {
      DepartureKeepsPartition(rooms, everyone);
    } else if Fires(s, step, Arrived) {
      LandingKeepsPartition(rooms, everyone);
    } else if step.Board? {
      RelocationKeepsPartition(rooms, step.p, ElliniaWaiting, everyone);
    } else if step.Pay? {
      RelocationKeepsPartition(rooms, step.p, OrbisStation, everyone);
    } else if step.Travel? {
      RelocationKeepsPartition(rooms, step.p, step.to, everyone);
    }
  }

  // ----- whole runs -----

  ghost predicate LegalRun(s: Schedule, steps: seq<Step>)
    decreases |steps|, 0
  {
    steps == [] ||
    (LegalRun(s, steps[..|steps| - 1]) && Legal(Play(s, steps[..|steps| - 1]), steps[|steps| - 1]))
  }

  ghost function Play(s: Schedule, steps: seq<Step>): Schedule
    requires LegalRun(s, steps)
    decreases |steps|, 1
  {
    if steps == [] then s else Planned(Play(s, steps[..|steps| - 1]), steps[|steps| - 1])
  }

  /** Where everyone is after the run. */
  ghost function PlayRooms(s: Schedule, rooms: Rooms, steps: seq<Step>): (r: Rooms)
    requires LegalRun(s, steps) && Complete(rooms)
    ensures Complete(r)
  {
    if steps == [] then rooms
    else
      var init := steps[..|steps| - 1];
      Moved(Play(s, init), PlayRooms(s, rooms, init), steps[|steps| - 1])
  }

  /** How often a handler has run. */
  ghost function Firings(s: Schedule, steps: seq<Step>, h: Handler): nat
    requires LegalRun(s, steps)
  {
    if steps == [] then 0
    else
      var init := steps[..|steps| - 1];
      Firings(s, init, h) + if Fires(Play(s, init), steps[|steps| - 1], h) then 1 else 0
  }

  ghost function Arrivals(s: Schedule, steps: seq<Step>): nat
    requires LegalRun(s, steps)
  {
    Firings(s, steps, Arrived)
  }

  lemma InitialIsBoarding(start: int)
    ensures Boarding(Initial(start), start)
  {
    assert [] + [Entry(start + CLOSE_TIME, StopEntry)] + [Entry(start + BEGIN_TIME, Takeoff)]
        == [Entry(start + CLOSE_TIME, StopEntry), Entry(start + BEGIN_TIME, Takeoff)];
  }

  /** When the current cycle has begun, one cycle length after another from time t on. */
  ghost function Began(s: Schedule, t: int, steps: seq<Step>): int
    requires LegalRun(s, steps)
  {
    if steps == [] then t
    else
      var init := steps[..|steps| - 1];
      Began(s, t, init) + if Fires(Play(s, init), steps[|steps| - 1], Arrived) then CYCLE else 0
  }

  lemma {:induction false} CyclesFollowEachOther(s: Schedule, t: int, steps: seq<Step>)
    requires InCycle(s, t) && LegalRun(s, steps)
    ensures InCycle(Play(s, steps), Began(s, t, steps))
  {
    if steps != [] {
      var init := steps[..|steps| - 1];
      CyclesFollowEachOther(s, t, init);
      StepStaysInCycle(Play(s, init), steps[|steps| - 1], Began(s, t, init));
    }
  }

  lemma {:induction false} BeganAfterArrivals(s: Schedule, t: int, steps: seq<Step>)
    requires LegalRun(s, steps)
    ensures Began(s, t, steps) == t + Arrivals(s, steps) * CYCLE
  {
    if steps != [] {
      BeganAfterArrivals(s, t, steps[..|steps| - 1]);
      var k := Arrivals(s, steps[..|steps| - 1]);
      assert (k + 1) * CYCLE == k * CYCLE + CYCLE;
    }
  }

  /** Cycle k begins exactly k times 15 minutes after the start, in every run. */
  lemma {:induction false} CyclesAreFifteenMinutes(start: int, steps: seq<Step>)
    requires LegalRun(Initial(start), steps)
    ensures var s := Initial(start); InCycle(Play(s, steps), start + Arrivals(s, steps) * CYCLE)
    ensures CYCLE == 900000
  {
    InitialIsBoarding(start);
    CyclesFollowEachOther(Initial(start), start, steps);
    BeganAfterArrivals(Initial(start), start, steps);
  }

  /** The timetable in milliseconds: with the cycle begun at t, the gate closes after four
      minutes, the boats leave after five and are back after fifteen; an attack comes eight to
      nine minutes after t, and its crew five seconds later. */
  lemma {:induction false} HandlersRunOnTime(start: int, steps: seq<Step>, step: Step)
    requires LegalRun(Initial(start), steps) && Legal(Play(Initial(start), steps), step)
    ensures var s := Play(Initial(start), steps);
            var t := start + Arrivals(Initial(start), steps) * 900000;
            && (Fires(s, step, StopEntry) ==> s.now == t + 240000 && s.entry && !Planned(s, step).entry)
            && (Fires(s, step, Takeoff) ==> s.now == t + 300000 && s.docked && !s.entry && !Planned(s, step).docked)
            && (Fires(s, step, Approach) ==> t + 480000 <= s.now < t + 540000)
            && (Fires(s, step, Invasion) ==> t + 485000 <= s.now < t + 545000)
            && (Fires(s, step, Arrived) ==>
                  s.now == t + 900000 && Planned(s, step).docked && Planned(s, step).entry)
            && (s.entry ==> t <= s.now <= t + 240000) && (s.docked ==> t <= s.now <= t + 300000)
  {
    CyclesAreFifteenMinutes(start, steps);
    TimesOfCycle(Play(Initial(start), steps), step, start + Arrivals(Initial(start), steps) * CYCLE);
  }

  lemma TimesOfCycle(s: Schedule, step: Step, t: int)
    requires InCycle(s, t) && Legal(s, step)
    ensures Fires(s, step, StopEntry) ==> s.now == t + 240000 && s.entry && !Planned(s, step).entry
    ensures Fires(s, step, Takeoff) ==> s.now == t + 300000 && s.docked && !s.entry && !Planned(s, step).docked
    ensures Fires(s, step, Approach) ==> t + 480000 <= s.now < t + 540000
    ensures Fires(s, step, Invasion) ==> t + 485000 <= s.now < t + 545000
    ensures Fires(s, step, Arrived) ==> s.now == t + 900000 && Planned(s, step).docked && Planned(s, step).entry
    ensures (s.entry ==> t <= s.now <= t + 240000) && (s.docked ==> t <= s.now <= t + 300000)
  {
    StepStaysInCycle(s, step, t);
    if step.Fire? && Flying(s, t) && |s.queue| == 2 {
      AttackFires(s, step, t);
    }
  }

  // ----- the drawn attack -----

  /** A flight that left at time left, after so many approaches and invasions: without a drawn
      attack only the arrival is due; with one, the enemy comes three minutes and the drawn
      delay after takeoff, stays flagged, and its crew comes five seconds later. */
  ghost predicate InFlight(f: Schedule, left: int, attack: Option<nat>, approaches: nat, invasions: nat) {
    && !f.docked && !f.entry && (forall i :: 0 <= i < |f.queue| ==> f.now <= f.queue[i].due)
    && match attack
       case None =>
         && approaches == invasions == 0 && f.queue == [Entry(left + 600000, Arrived)]
         && !f.haveBalrog && f.mobsToOrbis == f.mobsToEllinia == 0
       case Some(a) =>
         && a < 60000 && invasions <= approaches <= 1 && (f.haveBalrog <==> approaches == 1)
         && (invasions == 0 ==> f.mobsToOrbis == f.mobsToEllinia == 0)
         && f.queue == if approaches == 0 then [Entry(left + 180000 + a, Approach), Entry(left + 600000, Arrived)]
                       else if invasions == 0 then [Entry(left + 600000, Arrived), Entry(left + 185000 + a, Invasion)]
                       else [Entry(left + 600000, Arrived)]
  }

  lemma TakeoffBegins(s: Schedule, step: Step, t: int)
    requires InCycle(s, t) && Legal(s, step) && Fires(s, step, Takeoff)
    ensures InFlight(Planned(s, step), s.now, step.attack, 0, 0)
  {
    assert Closed(s, t) && s.queue[..0] + s.queue[1..] == [];
  }

  lemma FlightGoesOn(f: Schedule, step: Step, left: int, attack: Option<nat>, approaches: nat, invasions: nat)
    requires InFlight(f, left, attack, approaches, invasions) && Legal(f, step) && !Fires(f, step, Arrived)
    ensures InFlight(Planned(f, step), left, attack,
                     approaches + if Fires(f, step, Approach) then 1 else 0,
                     invasions + if Fires(f, step, Invasion) then 1 else 0)
  {
  }

  lemma {:induction false} FlightLasts(u: Schedule, left: int, attack: Option<nat>, after: seq<Step>)
    requires InFlight(u, left, attack, 0, 0) && LegalRun(u, after) && Arrivals(u, after) == 0
    ensures InFlight(Play(u, after), left, attack, Firings(u, after, Approach), Firings(u, after, Invasion))
  {
    if after != [] {
      var init, last := after[..|after| - 1], after[|after| - 1];
      FlightLasts(u, left, attack, init);
      FlightGoesOn(Play(u, init), last, left, attack, Firings(u, init, Approach), Firings(u, init, Invasion));
    }
  }

  /** Whatever handler of the flight runs next does so at its time; the invasion puts two
      monsters on each boat, and the arrival finds the attack, if one was drawn, behind it. */
  ghost predicate AttackOnTime(f: Schedule, next: Step, left: int, drawn: Option<nat>, approaches: nat, invasions: nat)
    requires Legal(f, next)
  {
    && (Fires(f, next, Approach) ==>
          drawn.Some? && f.now == left + 180000 + drawn.value && Planned(f, next).haveBalrog)
    && (Fires(f, next, Invasion) ==>
          && drawn.Some? && f.now == left + 185000 + drawn.value
          && f.mobsToOrbis == f.mobsToEllinia == 0
          && Planned(f, next).mobsToOrbis == Planned(f, next).mobsToEllinia == 2)
    && (Fires(f, next, Arrived) ==>
          && f.now == left + 600000 && f.haveBalrog == drawn.Some?
          && approaches == invasions == (if drawn.Some? then 1 else 0)
          && !Planned(f, next).haveBalrog)
  }

  /** The flight that left as u, after the steps and at the next one. */
  ghost predicate GoesAsDrawn(u: Schedule, left: int, drawn: Option<nat>, after: seq<Step>, next: Step)
    requires LegalRun(u, after) && Legal(Play(u, after), next)
  {
    var f, approaches, invasions := Play(u, after), Firings(u, after, Approach), Firings(u, after, Invasion);
    InFlight(f, left, drawn, approaches, invasions) && AttackOnTime(f, next, left, drawn, approaches, invasions)
  }

  /** In every run, an attack that was drawn at a takeoff happens, once and on time, before the
      arrival, and one that was not drawn does not: s is the state at the takeoff, u the one right
      after it, after are any steps short of the arrival, and next is one more step. */
  lemma {:induction false} DrawnAttackHappens(start: int, before: seq<Step>, s: Schedule, takeoff: Step, u: Schedule,
                                              after: seq<Step>, next: Step)
    requires LegalRun(Initial(start), before) && s == Play(Initial(start), before)
    requires Legal(s, takeoff) && Fires(s, takeoff, Takeoff) && u == Planned(s, takeoff)
    requires LegalRun(u, after) && Arrivals(u, after) == 0 && Legal(Play(u, after), next)
    ensures GoesAsDrawn(u, s.now, takeoff.attack, after, next)
  {
    InitialIsBoarding(start);
    CyclesFollowEachOther(Initial(start), start, before);
    TakeoffBegins(s, takeoff, Began(Initial(start), start, before));
    FlightLasts(u, s.now, takeoff.attack, after);
    AttackIsOnTime(Play(u, after), next, s.now, takeoff.attack,
                   Firings(u, after, Approach), Firings(u, after, Invasion));
  }

  lemma AttackIsOnTime(f: Schedule, next: Step, left: int, drawn: Option<nat>, approaches: nat, invasions: nat)
    requires InFlight(f, left, drawn, approaches, invasions) && Legal(f, next)
    ensures AttackOnTime(f, next, left, drawn, approaches, invasions)
  {
    if next.Fire? {
      assert f.queue[next.i].due <= f.queue[0].due;
      assert |f.queue| == 2 ==> f.queue[next.i].due <= f.queue[1].due;
    }
  }

  lemma {:induction false} EveryoneStaysSomewhere(s: Schedule, rooms: Rooms, steps: seq<Step>, everyone: set<Player>)
    requires LegalRun(s, steps) && Complete(rooms) && Partition(rooms, everyone)
    requires forall i :: 0 <= i < |steps| ==> ByMember(steps[i], everyone)
    ensures Partition(PlayRooms(s, rooms, steps), everyone)
  {
    if steps != [] {
      var init := steps[..|steps| - 1];
      EveryoneStaysSomewhere(s, rooms, init, everyone);
      StepKeepsPartition(Play(s, init), PlayRooms(s, rooms, init), steps[|steps| - 1], everyone);
    }
  }

  /** What holds between any two handlers of any run. */
  lemma {:induction false} HandlerBoundary(start: int, steps: seq<Step>)
    requires LegalRun(Initial(start), steps)
    ensures var f := Play(Initial(start), steps);
            && (f.entry ==> f.docked)
            && (f.haveBalrog ==> !f.docked)
            && (f.docked ==> f.mobsToOrbis == 0 && f.mobsToEllinia == 0)
            && 1 <= |f.queue| <= 2
  {
    InitialIsBoarding(start);
    CyclesFollowEachOther(Initial(start), start, steps);
  }

  /** The enemy ship and its crew come strictly between takeoff and arrival, and the crew
      only while the ship is there. */
  lemma AttackOnlyInFlight(s: Schedule, step: Step, t: int)
    requires InCycle(s, t) && Legal(s, step) && (Fires(s, step, Approach) || Fires(s, step, Invasion))
    ensures t + BEGIN_TIME < s.now < t + CYCLE && !s.docked
    ensures Fires(s, step, Invasion) <==> s.haveBalrog
  {
  }

  /** Landing empties both boats and both cabins and moves everybody to the right station. */
  lemma ArrivalEmptiesTheBoats(rooms: Rooms)
    requires Complete(rooms)
    ensures var r := Landed(rooms);
            && (forall a :: a in {BoatToOrbis, OrbisCabin, BoatToEllinia, ElliniaCabin} ==> r[a] == {})
            && r[OrbisStation] == rooms[OrbisStation] + rooms[BoatToOrbis] + rooms[OrbisCabin]
            && r[ElliniaDock] == rooms[ElliniaDock] + rooms[BoatToEllinia] + rooms[ElliniaCabin]
  {
  }

  // ----- delivery -----

  datatype Line = ToOrbis | ToEllinia

  function Waiting(l: Line): Place {
    if l.ToOrbis? then ElliniaWaiting else OrbisWaiting
  }

  function Deck(l: Line): Place {
    if l.ToOrbis? then BoatToOrbis else BoatToEllinia
  }

  function Cabin(l: Line): Place {
    if l.ToOrbis? then OrbisCabin else ElliniaCabin
  }

  function Destination(l: Line): Place {
    if l.ToOrbis? then OrbisStation else ElliniaDock
  }

  /** p does not leave the ferry by own means: while in the waiting room p waits, and
      during the ride p moves between deck and cabin at most. */
  ghost predicate Stays(l: Line, rooms: Rooms, step: Step, p: Player)
    requires Complete(rooms)
  {
    match step
    case Board(q) => q != p
    case Pay(q, _) => q != p
    case Travel(q, to) => q != p || (p !in rooms[Waiting(l)] && to in {Deck(l), Cabin(l)})
    case _ => true
  }

  ghost predicate OnTheWay(l: Line, docked: bool, rooms: Rooms, p: Player)
    requires Complete(rooms)
  {
    if docked then p in rooms[Waiting(l)]
    else p !in rooms[Waiting(l)] && (p in rooms[Deck(l)] || p in rooms[Cabin(l)])
  }

  lemma DepartureTakesAlong(l: Line, rooms: Rooms, p: Player)
    requires Complete(rooms) && p in rooms[Waiting(l)]
    ensures OnTheWay(l, false, Departed(rooms), p)
  {
  }

  lemma TakeoffIsFromTheDock(s: Schedule, step: Step, t: int)
    requires InCycle(s, t) && Legal(s, step) && !Fires(s, step, Arrived)
    ensures if Fires(s, step, Takeoff) then s.docked && !Planned(s, step).docked
            else Planned(s, step).docked == s.docked
  {
  }

  lemma {:induction false} StepCarriesOrDelivers(l: Line, s: Schedule, rooms: Rooms, step: Step, t: int, p: Player)
    requires InCycle(s, t) && Legal(s, step) && Complete(rooms)
    requires OnTheWay(l, s.docked, rooms, p) && Stays(l, rooms, step, p)
    ensures if Fires(s, step, Arrived) then s.now == t + CYCLE && p in Moved(s, rooms, step)[Destination(l)]
            else OnTheWay(l, Planned(s, step).docked, Moved(s, rooms, step), p)
  {
    if Fires(s, step, Arrived) {
      StepStaysInCycle(s, step, t);
      ArrivalEmptiesTheBoats(rooms);
      assert !s.docked;
    } else {
      TakeoffIsFromTheDock(s, step, t);
      if Fires(s, step, Takeoff) {
        DepartureTakesAlong(l, rooms, p);
      }
    }
  }

  /** No step of the run is an arrival, and p stays through all of them. */
  ghost predicate RidesThrough(l: Line, s: Schedule, rooms: Rooms, steps: seq<Step>, p: Player)
    requires LegalRun(s, steps) && Complete(rooms)
  {
    steps == [] ||
    var init, last := steps[..|steps| - 1], steps[|steps| - 1];
    && RidesThrough(l, s, rooms, init, p)
    && !Fires(Play(s, init), last, Arrived) && Stays(l, PlayRooms(s, rooms, init), last, p)
  }

  lemma {:induction false} RideContinues(l: Line, s: Schedule, rooms: Rooms, steps: seq<Step>, t: int, p: Player)
    requires InCycle(s, t) && LegalRun(s, steps) && Complete(rooms)
    requires OnTheWay(l, s.docked, rooms, p) && RidesThrough(l, s, rooms, steps, p)
    ensures InCycle(Play(s, steps), t) && OnTheWay(l, Play(s, steps).docked, PlayRooms(s, rooms, steps), p)
  {
    if steps != [] {
      var init, last := steps[..|steps| - 1], steps[|steps| - 1];
      RideContinues(l, s, rooms, init, t, p);
      StepStaysInCycle(Play(s, init), last, t);
      StepCarriesOrDelivers(l, Play(s, init), PlayRooms(s, rooms, init), last, t, p);
    }
  }

  /** From the docked state s on, with everybody in rooms, p rides along through the steps
      after, and next is one more legal step. */
  ghost predicate Passage(l: Line, s: Schedule, rooms: Rooms, p: Player, after: seq<Step>, next: Step)
    requires Complete(rooms)
  {
    s.docked && p in rooms[Waiting(l)] && Ride(l, s, rooms, p, after, next)
  }

  ghost predicate Ride(l: Line, s: Schedule, rooms: Rooms, p: Player, after: seq<Step>, next: Step)
    requires Complete(rooms)
  {
    && LegalRun(s, after) && RidesThrough(l, s, rooms, after, p)
    && Legal(Play(s, after), next) && Stays(l, PlayRooms(s, rooms, after), next, p)
  }

  /** Neither the steps nor the next one let the clock pass 15 minutes, and if the next one is
      the arrival, p is where the line goes, earliest minutes or more after s. */
  ghost predicate Delivers(l: Line, s: Schedule, rooms: Rooms, p: Player, after: seq<Step>, next: Step, earliest: int)
    requires Complete(rooms) && Passage(l, s, rooms, p, after, next)
  {
    var f := Play(s, after);
    && f.now <= s.now + 900000 && (!next.Tick? || next.until <= s.now + 900000)
    && (Fires(f, next, Arrived) ==>
          && s.now + earliest * 60000 <= f.now
          && p in Moved(f, PlayRooms(s, rooms, after), next)[Destination(l)])
  }

  lemma {:induction false} PassageDelivers(l: Line, s: Schedule, rooms: Rooms, t: int, p: Player, after: seq<Step>,
                                           next: Step)
    requires InCycle(s, t) && Complete(rooms) && Passage(l, s, rooms, p, after, next)
    ensures Delivers(l, s, rooms, p, after, next, if s.entry then 11 else 10)
  {
    RideContinues(l, s, rooms, after, t, p);
    StepCarriesOrDelivers(l, Play(s, after), PlayRooms(s, rooms, after), next, t, p);
    StepStaysInCycle(Play(s, after), next, t);
  }

  /** Bounded delivery on both lines: in every run, whoever is in a waiting room while the
      boats are docked, and then stays with the ferry, is where the line goes at the next
      arrival, 10 to 15 minutes later; the clock cannot pass 15 minutes before it. */
  lemma {:induction false} PassengersAreDelivered(l: Line, start: int, rooms: Rooms, before: seq<Step>, p: Player,
                                                  after: seq<Step>, next: Step)
    requires Complete(rooms) && LegalRun(Initial(start), before)
    requires Passage(l, Play(Initial(start), before), PlayRooms(Initial(start), rooms, before), p, after, next)
    ensures Delivers(l, Play(Initial(start), before), PlayRooms(Initial(start), rooms, before), p, after, next, 10)
  {
    InitialIsBoarding(start);
    CyclesFollowEachOther(Initial(start), start, before);
    PassageDelivers(l, Play(Initial(start), before), PlayRooms(Initial(start), rooms, before),
                    Began(Initial(start), start, before), p, after, next);
  }

  /** Whoever boards at Ellinia through Cherry, in any reachable state where entry is open,
      waits for the boat to Orbis, and, by staying, is in Orbis Station at the next arrival,
      11 to 15 minutes later. */
  lemma {:induction false} BoardersAreDelivered(start: int, rooms: Rooms, before: seq<Step>, p: Player,
                                                after: seq<Step>, next: Step)
    requires Complete(rooms) && LegalRun(Initial(start), before) && Play(Initial(start), before).entry
    requires var s, r := Play(Initial(start), before), PlayRooms(Initial(start), rooms, before);
             Ride(ToOrbis, Planned(s, Board(p)), Moved(s, r, Board(p)), p, after, next)
    ensures var s, r := Play(Initial(start), before), PlayRooms(Initial(start), rooms, before);
            var u, boarded := Planned(s, Board(p)), Moved(s, r, Board(p));
            && MovedTo(r, boarded, p, ElliniaWaiting) && Passage(ToOrbis, u, boarded, p, after, next)
            && Delivers(ToOrbis, u, boarded, p, after, next, 11)
  {
    InitialIsBoarding(start);
    CyclesFollowEachOther(Initial(start), start, before);
    var s, r := Play(Initial(start), before), PlayRooms(Initial(start), rooms, before);
    PassageDelivers(ToOrbis, s, Moved(s, r, Board(p)), Began(Initial(start), start, before), p, after, next);
  }

  // ----- the arrival can always be reached -----

  /** The handlers still due before the boats are back, the arrival included. */
  ghost function Remaining(s: Schedule): nat {
    if s.docked then (if s.entry then 5 else 4)
    else if |s.queue| == 2 then (if s.haveBalrog then 2 else 3) else 1
  }

  /** The clock can always move on to a handler that is due next. */
  lemma NextHandler(s: Schedule, t: int) returns (i: nat)
    requires InCycle(s, t)
    ensures i < |s.queue| && Legal(s, Tick(s.queue[i].due))
  {
    i := if Overtaken(s, t) && !s.docked then 1 else 0;
  }

  /** And a handler other than the arrival brings the arrival nearer. */
  lemma FiringAdvances(s: Schedule, t: int, i: nat)
    requires InCycle(s, t) && Legal(s, Fire(i, None)) && !Fires(s, Fire(i, None), Arrived)
    ensures Remaining(Planned(s, Fire(i, None))) < Remaining(s)
  {
    StepStaysInCycle(s, Fire(i, None), t);
  }

  lemma RideExtends(l: Line, s: Schedule, rooms: Rooms, p: Player, steps: seq<Step>, last: Step)
    requires LegalRun(s, steps) && Complete(rooms) && RidesThrough(l, s, rooms, steps, p)
    requires Legal(Play(s, steps), last) && (last.Tick? || last.Fire?) && !Fires(Play(s, steps), last, Arrived)
    ensures LegalRun(s, steps + [last]) && Play(s, steps + [last]) == Planned(Play(s, steps), last)
    ensures RidesThrough(l, s, rooms, steps + [last], p)
  {
    assert (steps + [last])[..|steps|] == steps;
  }

  lemma {:induction false} RideToArrival(l: Line, s: Schedule, rooms: Rooms, t: int, p: Player, after: seq<Step>)
      returns (more: seq<Step>, next: Step)
    requires InCycle(s, t) && Complete(rooms) && OnTheWay(l, s.docked, rooms, p)
    requires LegalRun(s, after) && RidesThrough(l, s, rooms, after, p)
    ensures after <= more && LegalRun(s, more) && RidesThrough(l, s, rooms, more, p)
    ensures Legal(Play(s, more), next) && Fires(Play(s, more), next, Arrived)
    decreases Remaining(Play(s, after))
  {
    RideContinues(l, s, rooms, after, t, p);
    var f := Play(s, after);
    var i := NextHandler(f, t);
    var tick, fire := Tick(f.queue[i].due), Fire(i, None);
    RideExtends(l, s, rooms, p, after, tick);
    StepStaysInCycle(f, tick, t);
    var ticked := after + [tick];
    if f.queue[i].handler == Arrived {
      more, next := ticked, fire;
    } else {
      FiringAdvances(Planned(f, tick), t, i);
      RideExtends(l, s, rooms, p, ticked, fire);
      more, next := RideToArrival(l, s, rooms, t, p, ticked + [fire]);
    }
  }

  /** However the ride of a passenger has gone so far, it can be carried on to its
      arrival, which delivers the passenger. */
  lemma {:induction false} EveryRideCanArrive(l: Line, start: int, rooms: Rooms, before: seq<Step>, p: Player,
                                              after: seq<Step>)
    requires Complete(rooms) && LegalRun(Initial(start), before)
    requires var s, r := Play(Initial(start), before), PlayRooms(Initial(start), rooms, before);
             s.docked && p in r[Waiting(l)] && LegalRun(s, after) && RidesThrough(l, s, r, after, p)
    ensures var s, r := Play(Initial(start), before), PlayRooms(Initial(start), rooms, before);
            exists more, next :: after <= more && Passage(l, s, r, p, more, next)
                                 && Fires(Play(s, more), next, Arrived)
                                 && p in Moved(Play(s, more), PlayRooms(s, r, more), next)[Destination(l)]
  {
    InitialIsBoarding(start);
    CyclesFollowEachOther(Initial(start), start, before);
    var s, r := Play(Initial(start), before), PlayRooms(Initial(start), rooms, before);
    var more, next := RideToArrival(l, s, r, Began(Initial(start), start, before), p, after);
    assert Passage(l, s, r, p, more, next);
    PassengersAreDelivered(l, start, rooms, before, p, more, next);
  }
}
