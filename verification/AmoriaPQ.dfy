/** Party selection in scripts/event/AmoriaPQ.js: a loop that gathers members and ORs their
    genders into a bit mask. Genders are 0 and 1, as the host stores them. */
module AmoriaPQ {

  const MIN_PLAYERS := 6
  const MAX_PLAYERS := 6
  const MIN_LEVEL := 40
  const MAX_LEVEL := 255
  const RECRUIT_MAP := 670010100

  datatype Gender = Male | Female

  datatype Member = Member(id: int, mapId: int, level: int, leader: bool, married: bool, gender: Gender, partnerId: int)

  predicate Qualifies(m: Member) {
    m.mapId == RECRUIT_MAP && MIN_LEVEL <= m.level <= MAX_LEVEL
  }

  /** The qualifying members, in party order. */
  function Qualified(party: seq<Member>): seq<Member> {
    if party == [] then []
    else Qualified(party[..|party| - 1]) + if Qualifies(party[|party| - 1]) then [party[|party| - 1]] else []
  }

  /** What the mask, the flags and the size checks are for. */
  ghost predicate IsTeam(team: seq<Member>) {
    && |team| == 6
    && (exists m :: m in team && m.leader)
    && (exists m :: m in team && m.gender == Male)
    && (exists m :: m in team && m.gender == Female)
    && forall m :: m in team ==> m.married
  }

  function Bit(g: Gender): bv8 {
    1 << (if g == Male then 0 else 1)
  }

  method GetEligibleParty(party: seq<Member>) returns (eligible: seq<Member>)
    ensures eligible == if IsTeam(Qualified(party)) then Qualified(party) else []
  {
    eligible := [];
    var hasLeader, hasNotMarried := false, false;
    var mask: bv8 := 0;
    for i := 0 to |party|
      invariant eligible == Qualified(party[..i])
      invariant hasLeader <==> exists m :: m in eligible && m.leader
      invariant hasNotMarried <==> exists m :: m in eligible && !m.married
      invariant mask == (if exists m :: m in eligible && m.gender == Male then 1 else 0)
                        | (if exists m :: m in eligible && m.gender == Female then 2 else 0)
    {
      var ch := party[i];
      assert party[..i + 1][..i] == party[..i];
      ghost var before := eligible;
      if Qualifies(ch) {
        if ch.leader {
          hasLeader := true;
        }
        if !ch.married {
          hasNotMarried := true;
        }
        eligible := eligible + [ch];
        mask := mask | Bit(ch.gender);
        assert ch in eligible && forall m :: m in eligible <==> m in before || m == ch;
      }
    }
    assert party[..|party|] == party;
    if !(hasLeader && |eligible| >= MIN_PLAYERS && |eligible| <= MAX_PLAYERS && mask == 3) {
      eligible := [];
    }
    if hasNotMarried {
      eligible := [];
    }
  }

  /** The selection keeps exactly the qualifying members: none is lost or doubled. */
  lemma {:induction false} QualifiedKeepsExactly(party: seq<Member>, m: Member)
    ensures multiset(Qualified(party))[m]
            == if m.mapId == 670010100 && 40 <= m.level <= 255 then multiset(party)[m] else 0
  {
    if party != [] {
      var n := |party| - 1;
      QualifiedKeepsExactly(party[..n], m);
      assert party == party[..n] + [party[n]];
    }
  }

  /** Everyone on the team has a partner on the team. */
  method IsTeamAllCouple(team: seq<Member>) returns (all: bool)
    ensures all <==> forall m :: m in team ==> m.partnerId > 0 && exists n :: n in team && n.id == m.partnerId
  {
    for i := 0 to |team|
      invariant forall k :: 0 <= k < i ==> team[k].partnerId > 0 && exists n :: n in team && n.id == team[k].partnerId
    {
      var pid := team[i].partnerId;
      var known := GetPlayerById(team, pid);
      if pid <= 0 || !known {
        return false;
      }
    }
    return true;
  }

  method GetPlayerById(team: seq<Member>, id: int) returns (known: bool)
    ensures known <==> exists n :: n in team && n.id == id
  {
    for i := 0 to |team|
      invariant forall k :: 0 <= k < i ==> team[k].id != id
    {
      if team[i].id == id {
        return true;
      }
    }
    return false;
  }
}
