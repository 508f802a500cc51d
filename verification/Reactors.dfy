/** generateMapReactors of scripts/event/CWKPQ.js: a rejection loop over random reactor
    choices. The oracle is a list of attempts, one index per slot; it is fair if some
    attempt is acceptable. */
module Reactors {

  const NO_JOB := -1
  const SLOTS := 8

  const JOB_REACTORS: seq<seq<int>> := [
    [0, 0, -1, -1, 0],
    [-1, 4, 3, 3, 3],
    [1, 3, 4, 2, 2],
    [2, -1, 0, 1, -1],
    [3, 2, 1, 0, -1],
    [4, 1, -1, 4, 1],
    [-1, 2, 4],
    [-1, -1]]

  const NAMES: seq<seq<string>> := [
    ["4skill0a", "4skill0b", "4fake1c", "4fake1d", "4skill0e"],
    ["4fake0a", "4skill4b", "4skill3c", "4skill3d", "4skill3e"],
    ["4skill1a", "4skill3b", "4skill4c", "4skill2d", "4skill2e"],
    ["4skill2a", "4fake1b", "4skill0c", "4skill1d", "4fake1e"],
    ["4skill3a", "4skill2b", "4skill1c", "4skill0d", "4fake0e"],
    ["4skill4a", "4skill1b", "4fake0c", "4skill4d", "4skill1e"],
    ["4fake1a", "4skill2c", "4skill4e"],
    ["4fake0b", "4fake0d"]]

  /** A reactor name in structured form: kind, number and letter. */
  datatype Reactor = Skill(job: int, letter: char) | Fake(number: int, letter: char)

  function Spelled(r: Reactor): string {
    match r
    case Skill(job, letter) => "4skill" + [Digit(job), letter]
    case Fake(number, letter) => "4fake" + [Digit(number), letter]
  }

  function Digit(n: int): char {
    if n == 0 then '0' else if n == 1 then '1' else if n == 2 then '2' else if n == 3 then '3'
    else if n == 4 then '4' else '?'
  }

  function Cell(i: nat, k: nat): Reactor
    requires i < SLOTS && k < Width(i)
  {
    [[Skill(0, 'a'), Skill(0, 'b'), Fake(1, 'c'), Fake(1, 'd'), Skill(0, 'e')],
     [Fake(0, 'a'), Skill(4, 'b'), Skill(3, 'c'), Skill(3, 'd'), Skill(3, 'e')],
     [Skill(1, 'a'), Skill(3, 'b'), Skill(4, 'c'), Skill(2, 'd'), Skill(2, 'e')],
     [Skill(2, 'a'), Fake(1, 'b'), Skill(0, 'c'), Skill(1, 'd'), Fake(1, 'e')],
     [Skill(3, 'a'), Skill(2, 'b'), Skill(1, 'c'), Skill(0, 'd'), Fake(0, 'e')],
     [Skill(4, 'a'), Skill(1, 'b'), Fake(0, 'c'), Skill(4, 'd'), Skill(1, 'e')],
     [Fake(1, 'a'), Skill(2, 'c'), Skill(4, 'e')],
     [Fake(0, 'b'), Fake(0, 'd')]][i][k]
  }

  function Width(i: nat): nat
    requires i < SLOTS
  {
    if i == 6 then 3 else if i == 7 then 2 else 5
  }

  lemma TablesAgree(i: nat, k: nat)
    requires i < SLOTS && k < Width(i)
    ensures |JOB_REACTORS[i]| == |NAMES[i]| == Width(i)
    ensures NAMES[i][k] == Spelled(Cell(i, k))
    ensures Cell(i, k).Skill? <==> JOB_REACTORS[i][k] != NO_JOB
    ensures Cell(i, k).Skill? ==> Cell(i, k).job == JOB_REACTORS[i][k]
  {
  }

  // ----- the rejection loop -----

  ghost predicate Attempt(idx: seq<nat>) {
    |idx| == SLOTS && forall i :: 0 <= i < SLOTS ==> idx[i] < Width(i)
  }

  function Job(i: nat, k: nat): (job: int)
    requires i < SLOTS && k < Width(i)
    ensures NO_JOB <= job < 5
  {
    TablesAgree(i, k);
    JOB_REACTORS[i][k]
  }

  ghost function JobsFound(idx: seq<nat>, n: nat): set<int>
    requires Attempt(idx) && n <= SLOTS
  {
    set i | 0 <= i < n :: Job(i, idx[i])
  }

  ghost predicate Accepted(idx: seq<nat>)
    requires Attempt(idx)
  {
    |JobsFound(idx, SLOTS)| == 6
  }

  /** What the loop is for: eight different reactors, a skill for each of the five jobs,
      and one to three fakes. */
  ghost predicate Complete(names: seq<string>) {
    && |names| == SLOTS
    && (forall i, j :: 0 <= i < j < SLOTS ==> names[i] != names[j])
    && (forall job :: 0 <= job < 5 ==> HasSkill(names, job))
    && 1 <= |Fakes(names)| <= 3
  }

  ghost predicate HasSkill(names: seq<string>, job: int) {
    exists letter :: Spelled(Skill(job, letter)) in names
  }

  ghost predicate IsFake(name: string) {
    "4fake" <= name
  }

  ghost function Fakes(names: seq<string>): set<int> {
    set i | 0 <= i < |names| && IsFake(names[i])
  }

  method GenerateMapReactors(attempts: seq<seq<nat>>) returns (toDeploy: seq<string>)
    requires forall a :: 0 <= a < |attempts| ==> Attempt(attempts[a])
    requires exists a :: 0 <= a < |attempts| && Accepted(attempts[a])
    ensures exists a :: 0 <= a < |attempts| && Accepted(attempts[a])
              && (forall b :: 0 <= b < a ==> !Accepted(attempts[b]) && !Complete(Named(attempts[b])))
              && toDeploy == Named(attempts[a])
    ensures Complete(toDeploy)
  {
    var a := 0;
    var rndIndex: seq<nat> := [];
    while true
      invariant 0 <= a <= |attempts|
      invariant forall b :: 0 <= b < a ==> !Accepted(attempts[b])
      decreases |attempts| - a
    {
      var jobFound: set<int> := {};
      rndIndex := [];
      for i := 0 to SLOTS
        invariant a < |attempts| && rndIndex == attempts[a][..i]
        invariant jobFound == JobsFound(attempts[a], i)
      {
        var idx := attempts[a][i];
        jobFound := jobFound + {Job(i, idx)};
        rndIndex := rndIndex + [idx];
      }
      assert rndIndex == attempts[a];
      if |jobFound| == 6 {
        break;
      }
      a := a + 1;
    }
    toDeploy := [];
    for i := 0 to SLOTS
      invariant toDeploy == Named(attempts[a])[..i]
    {
      toDeploy := toDeploy + [Name(i, rndIndex[i])];
    }
    assert Named(attempts[a])[..SLOTS] == Named(attempts[a]);
    AcceptedIsComplete(attempts[a]);
    forall b | 0 <= b < a ensures !Complete(Named(attempts[b])) {
      AcceptedIffComplete(attempts[b]);
    }
  }

  function Name(i: nat, k: nat): string
    requires i < SLOTS && k < Width(i)
  {
    TablesAgree(i, k);
    NAMES[i][k]
  }

  ghost function Named(idx: seq<nat>): (names: seq<string>)
    requires Attempt(idx)
    ensures |names| == SLOTS && forall i :: 0 <= i < SLOTS ==> names[i] == Name(i, idx[i])
  {
    seq(SLOTS, i requires 0 <= i < SLOTS => Name(i, idx[i]))
  }

  lemma NameMeansJob(i: nat, k: nat)
    requires i < SLOTS && k < Width(i)
    ensures IsFake(Name(i, k)) <==> Job(i, k) == NO_JOB
    ensures Job(i, k) != NO_JOB ==>
              Cell(i, k).Skill? && Cell(i, k).job == Job(i, k) && Name(i, k) == Spelled(Cell(i, k))
  {
    TablesAgree(i, k);
    var s := Spelled(Cell(i, k));
    assert s[1] == (if Cell(i, k).Skill? then 's' else 'f');
    if Cell(i, k).Fake? {
      assert s[..5] == "4fake";
    }
  }

  lemma NamesDiffer(i: nat, k: nat, j: nat, m: nat)
    requires i < j < SLOTS && k < Width(i) && m < Width(j)
    ensures Name(i, k) != Name(j, m)
  {
  }

  lemma SubsetOfSameSize(s: set<int>, t: set<int>)
    requires s <= t && |s| == |t|
    ensures s == t
  {
    assert t == s + (t - s);
  }

  lemma AcceptedHasEveryJob(idx: seq<nat>, job: int) returns (i: nat)
    requires Attempt(idx) && Accepted(idx) && NO_JOB <= job < 5
    ensures i < SLOTS && Job(i, idx[i]) == job
  {
    SubsetOfSameSize(JobsFound(idx, SLOTS), {-1, 0, 1, 2, 3, 4});
    assert job in JobsFound(idx, SLOTS);
    i :| 0 <= i < SLOTS && Job(i, idx[i]) == job;
  }

  lemma AcceptedIsComplete(idx: seq<nat>)
    requires Attempt(idx) && Accepted(idx)
    ensures Complete(Named(idx))
  {
    var names := Named(idx);
    forall i, j | 0 <= i < j < SLOTS
      ensures names[i] != names[j]
    {
      NamesDiffer(i, idx[i], j, idx[j]);
    }
    forall i | 0 <= i < SLOTS
      ensures IsFake(names[i]) <==> Job(i, idx[i]) == NO_JOB
    {
      NameMeansJob(i, idx[i]);
    }
    forall job | 0 <= job < 5
      ensures HasSkill(names, job)
    {
      var i := AcceptedHasEveryJob(idx, job);
      NameMeansJob(i, idx[i]);
      assert names[i] == Spelled(Skill(job, Cell(i, idx[i]).letter));
    }
    var jobs := seq(SLOTS, i requires 0 <= i < SLOTS => Job(i, idx[i]));
    forall job | NO_JOB <= job < 5
      ensures job in jobs
    {
      var i := AcceptedHasEveryJob(idx, job);
      assert jobs[i] == job;
    }
    CountUnused(jobs, Fakes(names));
  }

  /** A name that shows a job's skill stands in a slot of that job. */
  lemma SkillMeansJob(i: nat, k: nat, job: int, letter: char)
    requires i < SLOTS && k < Width(i) && 0 <= job < 5 && Name(i, k) == Spelled(Skill(job, letter))
    ensures Job(i, k) == job
  {
    NameMeansJob(i, k);
    var s := Name(i, k);
    assert s[1] == 's';
    assert s[6] == Digit(job) && s[6] == Digit(Job(i, k));
  }

  /** So the loop ends with the first attempt that serves its purpose. */
  lemma AcceptedIffComplete(idx: seq<nat>)
    requires Attempt(idx)
    ensures Accepted(idx) <==> Complete(Named(idx))
  {
    if Accepted(idx) {
      AcceptedIsComplete(idx);
    }
    if Complete(Named(idx)) {
      FakeFillsASlot(idx);
      forall job | 0 <= job < 5 ensures job in JobsFound(idx, SLOTS) {
        SkillFillsASlot(idx, job);
      }
      AllSix(JobsFound(idx, SLOTS));
    }
  }

  lemma AllSix(found: set<int>)
    requires forall job :: job in found <==> NO_JOB <= job < 5
    ensures |found| == 6
  {
    var all: set<int> := {-1, 0, 1, 2, 3, 4};
    forall job ensures job in found <==> job in all {
      if job in found {
        assert job == -1 || job == 0 || job == 1 || job == 2 || job == 3 || job == 4;
      }
    }
    assert found == all;
  }

  lemma SkillFillsASlot(idx: seq<nat>, job: int)
    requires Attempt(idx) && 0 <= job < 5 && HasSkill(Named(idx), job)
    ensures job in JobsFound(idx, SLOTS)
  {
    var letter :| Spelled(Skill(job, letter)) in Named(idx);
    var i :| 0 <= i < SLOTS && Named(idx)[i] == Spelled(Skill(job, letter));
    SkillMeansJob(i, idx[i], job, letter);
  }

  lemma FakeFillsASlot(idx: seq<nat>)
    requires Attempt(idx) && |Fakes(Named(idx))| >= 1
    ensures NO_JOB in JobsFound(idx, SLOTS)
  {
    var i :| i in Fakes(Named(idx));
    NameMeansJob(i, idx[i]);
  }

  /** Eight slots that show all five jobs and a fake show at most three fakes. */
  lemma CountUnused(jobs: seq<int>, fakes: set<int>)
    requires |jobs| == SLOTS && forall job :: NO_JOB <= job < 5 ==> job in jobs
    requires forall i :: i in fakes <==> 0 <= i < SLOTS && jobs[i] == NO_JOB
    ensures 1 <= |fakes| <= 3
  {
    assert NO_JOB in jobs && 0 in jobs && 1 in jobs && 2 in jobs && 3 in jobs && 4 in jobs;
    var i :| 0 <= i < SLOTS && jobs[i] == NO_JOB;
    assert fakes == {i} + (fakes - {i});
    var a :| 0 <= a < SLOTS && jobs[a] == 0;
    var b :| 0 <= b < SLOTS && jobs[b] == 1;
    var c :| 0 <= c < SLOTS && jobs[c] == 2;
    var d :| 0 <= d < SLOTS && jobs[d] == 3;
    var e :| 0 <= e < SLOTS && jobs[e] == 4;
    AtMostThreeOthers(fakes, a, b, c, d, e);
  }

  lemma AtMostThreeOthers(s: set<int>, a: nat, b: nat, c: nat, d: nat, e: nat)
    requires a < SLOTS && b < SLOTS && c < SLOTS && d < SLOTS && e < SLOTS
    requires a != b && a != c && a != d && a != e && b != c && b != d && b != e && c != d && c != e && d != e
    requires a !in s && b !in s && c !in s && d !in s && e !in s
    requires forall i :: i in s ==> 0 <= i < SLOTS
    ensures |s| <= 3
  {
    var slots: set<int> := {0, 1, 2, 3, 4, 5, 6, 7};
    var skills: set<int> := {a, b, c, d, e};
    forall i | i in s + skills
      ensures i in slots
    {
      assert 0 <= i < 8;
      assert i == 0 || i == 1 || i == 2 || i == 3 || i == 4 || i == 5 || i == 6 || i == 7;
    }
    assert |s + skills| == |s| + |skills|;
    SubsetIsSmaller(s + skills, slots);
  }

  lemma SubsetIsSmaller(s: set<int>, t: set<int>)
    requires s <= t
    ensures |s| <= |t|
  {
    assert t == s + (t - s);
  }

  /** A satisfying choice exists, so a fair oracle ends the loop. */
  lemma AcceptableChoiceExists()
    ensures exists idx :: Attempt(idx) && Accepted(idx)
  {
    var idx: seq<nat> := [0, 1, 0, 0, 0, 0, 0, 0];
    assert Attempt(idx);
    var found := JobsFound(idx, SLOTS);
    assert Job(0, idx[0]) == 0 && Job(1, idx[1]) == 4 && Job(2, idx[2]) == 1;
    assert Job(3, idx[3]) == 2 && Job(4, idx[4]) == 3 && Job(7, idx[7]) == -1;
    assert found == {-1, 0, 1, 2, 3, 4};
  }
}
