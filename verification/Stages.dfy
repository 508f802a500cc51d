/** Stage progression by map changes, shared by CWKPQ.js and PiratePQ.js: the gates open
    strictly in order, and each one that opens restarts the event timer. */
module Stages {

  /** gates[k] is the map that leads from stage k to stage k + 1; times[0] is the time
      allowed at the start and times[k + 1] the time allowed once gates[k] is passed. */
  datatype Quest = Quest(gates: seq<int>, times: seq<nat>)

  ghost predicate WellFormed(q: Quest) {
    |q.times| == |q.gates| + 1
  }

  datatype Visit = Visit(mapid: int, now: int)

  datatype Progress = Progress(passed: nat, deadline: int)

  function Started(q: Quest, start: int): Progress
    requires WellFormed(q)
  {
    Progress(0, start + q.times[0])
  }

  function Entered(q: Quest, p: Progress, v: Visit): Progress
    requires WellFormed(q)
  {
    if p.passed < |q.gates| && v.mapid == q.gates[p.passed]
    then Progress(p.passed + 1, v.now + q.times[p.passed + 1])
    else p
  }

  ghost function Run(q: Quest, start: int, visits: seq<Visit>): (p: Progress)
    requires WellFormed(q)
    ensures p.passed <= |q.gates|
  {
    if visits == [] then Started(q, start)
    else Entered(q, Run(q, start, visits[..|visits| - 1]), visits[|visits| - 1])
  }

  /** When the last gate that is open was opened; the start if none is. */
  ghost function OpenedAt(q: Quest, start: int, visits: seq<Visit>): int
    requires WellFormed(q)
  {
    if visits == [] then start
    else
      var init := visits[..|visits| - 1];
      if Run(q, start, visits).passed > Run(q, start, init).passed then visits[|visits| - 1].now
      else OpenedAt(q, start, init)
  }

  /** The timer grants the time of the stage from there on, whatever else is visited. */
  lemma {:induction false} TimerRunsFromTheGate(q: Quest, start: int, visits: seq<Visit>)
    requires WellFormed(q)
    ensures var p := Run(q, start, visits); p.deadline == OpenedAt(q, start, visits) + q.times[p.passed]
  {
    if visits != [] {
      TimerRunsFromTheGate(q, start, visits[..|visits| - 1]);
    }
  }

  /** idx shows where, in order, the maps of xs occur among the visits. */
  ghost predicate Embeds(idx: seq<nat>, xs: seq<int>, visits: seq<Visit>) {
    && |idx| == |xs|
    && (forall i :: 0 <= i < |idx| ==> idx[i] < |visits| && visits[idx[i]].mapid == xs[i])
    && (forall i, j :: 0 <= i < j < |idx| ==> idx[i] < idx[j])
  }

  ghost predicate IsSubsequence(xs: seq<int>, visits: seq<Visit>) {
    exists idx :: Embeds(idx, xs, visits)
  }

  lemma {:induction false} PassedGatesWereVisited(q: Quest, start: int, visits: seq<Visit>)
    requires WellFormed(q)
    ensures IsSubsequence(q.gates[..Run(q, start, visits).passed], visits)
  {
    var k := Run(q, start, visits).passed;
    if visits == [] {
      assert Embeds([], q.gates[..k], visits);
    } else {
      var n := |visits| - 1;
      var init := visits[..n];
      PassedGatesWereVisited(q, start, init);
      var m := Run(q, start, init).passed;
      var idx :| Embeds(idx, q.gates[..m], init);
      if k == m {
        assert Embeds(idx, q.gates[..k], visits);
      } else {
        assert Embeds(idx + [n], q.gates[..k], visits);
      }
    }
  }

  lemma {:induction false} VisitedGatesArePassed(q: Quest, start: int, visits: seq<Visit>, k: nat, idx: seq<nat>)
    requires WellFormed(q) && k <= |q.gates| && Embeds(idx, q.gates[..k], visits)
    ensures k <= Run(q, start, visits).passed
    decreases |visits|
  {
    if k > 0 {
      assert idx[k - 1] < |visits|;
      var n := |visits| - 1;
      var init := visits[..n];
      if idx[k - 1] == n {
        assert Embeds(idx[..k - 1], q.gates[..k - 1], init);
        VisitedGatesArePassed(q, start, init, k - 1, idx[..k - 1]);
      } else {
        assert Embeds(idx, q.gates[..k], init);
        VisitedGatesArePassed(q, start, init, k, idx);
      }
    }
  }

  /** The stage is the length of the longest prefix of the gates that occurs, in order,
      among the visits of all players. */
  lemma StageIsLongestGatePrefix(q: Quest, start: int, visits: seq<Visit>, k: nat)
    requires WellFormed(q) && k <= |q.gates|
    ensures k <= Run(q, start, visits).passed <==> IsSubsequence(q.gates[..k], visits)
  {
    var m := Run(q, start, visits).passed;
    if k <= m {
      PassedGatesWereVisited(q, start, visits);
      var idx :| Embeds(idx, q.gates[..m], visits);
      assert Embeds(idx[..k], q.gates[..k], visits);
    }
    if IsSubsequence(q.gates[..k], visits) {
      var idx :| Embeds(idx, q.gates[..k], visits);
      VisitedGatesArePassed(q, start, visits, k, idx);
    }
  }

  /** No visit happens after the timer has run out. */
  ghost predicate Timely(q: Quest, start: int, visits: seq<Visit>)
    requires WellFormed(q)
  {
    visits == [] ||
    var init, last := visits[..|visits| - 1], visits[|visits| - 1];
    Timely(q, start, init) && last.now <= Run(q, start, init).deadline
  }

  lemma RunNext(q: Quest, start: int, visits: seq<Visit>, v: Visit)
    requires WellFormed(q)
    ensures Run(q, start, visits + [v]) == Entered(q, Run(q, start, visits), v)
    ensures Timely(q, start, visits + [v]) <==> Timely(q, start, visits) && v.now <= Run(q, start, visits).deadline
  {
  }

  function Sum(times: seq<nat>): nat {
    if times == [] then 0 else Sum(times[..|times| - 1]) + times[|times| - 1]
  }

  lemma SumNext(times: seq<nat>, k: nat)
    requires k < |times|
    ensures Sum(times[..k + 1]) == Sum(times[..k]) + times[k]
  {
    assert times[..k + 1][..k] == times[..k];
  }

  lemma {:induction false} SumMonotone(times: seq<nat>, k: nat)
    requires k <= |times|
    ensures Sum(times[..k]) <= Sum(times)
    decreases |times|
  {
    if k < |times| {
      SumMonotone(times[..|times| - 1], k);
      assert times[..|times| - 1][..k] == times[..k];
    } else {
      assert times[..k] == times;
    }
  }

  /** The timer always runs out within the sum of the times of the stages reached, so no
      visit happens later than the sum of all of them. */
  lemma {:induction false} RunsOutInTime(q: Quest, start: int, visits: seq<Visit>)
    requires WellFormed(q) && Timely(q, start, visits)
    ensures var p := Run(q, start, visits);
            && p.deadline <= start + Sum(q.times[..p.passed + 1])
            && p.deadline <= start + Sum(q.times)
            && (visits != [] ==> visits[|visits| - 1].now <= start + Sum(q.times))
  {
    var p := Run(q, start, visits);
    if visits == [] {
      assert q.times[..1] == [q.times[0]];
      assert [q.times[0]][..0] == [];
      assert Sum([q.times[0]]) == q.times[0];
    } else {
      var init := visits[..|visits| - 1];
      RunsOutInTime(q, start, init);
      var k := Run(q, start, init).passed;
      if p.passed != k {
        assert q.times[..k + 2][..k + 1] == q.times[..k + 1];
      }
    }
    SumMonotone(q.times, p.passed + 1);
  }
}
