/** The linked combinations of stage 6 and the shelved books of stage 1
    in scripts/event/MagatiaPQ_A.js. */
module MagatiaPQ {
  import opened Basics
  import opened Shuffling

  const POSITIONS := 10
  const ANSWERS := 4
  const DIGITS: seq<int> := [0, 1, 2, 3]

  /** One full set of in-range draws for each of the ten positions. */
  ghost predicate ColumnDraws(draws: seq<seq<nat>>) {
    |draws| == POSITIONS && forall j :: 0 <= j < POSITIONS ==> |draws[j]| == ANSWERS && InRange(draws[j])
  }

  function ToString(r: int): char
    requires 0 <= r < ANSWERS
  {
    ['0', '1', '2', '3'][r]
  }

  /** Four answers over the digits 0..3 that differ from each other at every position. */
  ghost predicate Linked(comb: seq<string>) {
    && |comb| == ANSWERS
    && (forall i :: 0 <= i < ANSWERS ==> |comb[i]| == POSITIONS)
    && (forall j :: 0 <= j < POSITIONS ==> UsesEachDigitOnce(Column(comb, j)))
  }

  ghost predicate UsesEachDigitOnce(c: string) {
    (forall i :: 0 <= i < |c| ==> '0' <= c[i] <= '3') && Distinct(c)
  }

  /** The combinations that the draws denote: answer i reads entry i of every shuffled column. */
  ghost predicate Spells(comb: seq<string>, draws: seq<seq<nat>>)
    requires ColumnDraws(draws)
  {
    && |comb| == ANSWERS
    && (forall i :: 0 <= i < ANSWERS ==> |comb[i]| == POSITIONS)
    && forall j :: 0 <= j < POSITIONS ==> Column(comb, j) == Text(Shuffled(DIGITS, draws[j]))
  }

  ghost function Column(comb: seq<string>, j: nat): (c: string)
    requires |comb| == ANSWERS && forall i :: 0 <= i < ANSWERS ==> j < |comb[i]|
    ensures |c| == ANSWERS
  {
    [comb[0][j], comb[1][j], comb[2][j], comb[3][j]]
  }

  /** Renders digits; a value that is no digit cannot occur in a shuffled column. */
  ghost function Text(digits: seq<int>): (t: string)
    ensures |t| == |digits|
  {
    seq(|digits|, i requires 0 <= i < |digits| => if 0 <= digits[i] < ANSWERS then ToString(digits[i]) else '?')
  }

  lemma ShuffledDigits(draws: seq<nat>)
    requires |draws| == ANSWERS && InRange(draws)
    ensures var c := Shuffled(DIGITS, draws);
            (forall i :: 0 <= i < ANSWERS ==> 0 <= c[i] < ANSWERS) && Distinct(c)
  {
    var c := Shuffled(DIGITS, draws);
    ShuffledPermutes(DIGITS, draws);
    forall i | 0 <= i < ANSWERS
      ensures 0 <= c[i] < ANSWERS
    {
      assert c[i] in multiset(c);
    }
    SameElementsDistinct(DIGITS, c);
  }

  lemma SameElementsDistinct(s: seq<int>, t: seq<int>)
    requires multiset(s) == multiset(t) && Distinct(s)
    ensures Distinct(t)
  {
    forall i, j | 0 <= i < j < |t|
      ensures t[i] != t[j]
    {
      if t[i] == t[j] {
        CountTwice(t, i, j);
        CountOnce(s, t[i]);
      }
    }
  }

  lemma CountTwice(t: seq<int>, i: nat, j: nat)
    requires i < j < |t| && t[i] == t[j]
    ensures multiset(t)[t[i]] >= 2
  {
    assert t == t[..j] + t[j..];
    assert t[i] in t[..j] && t[j] in t[j..];
    assert t[i] in multiset(t[..j]) && t[j] in multiset(t[j..]);
  }

  lemma {:induction false} CountOnce(s: seq<int>, x: int)
    requires Distinct(s)
    ensures multiset(s)[x] <= 1
  {
    if |s| > 0 {
      assert s == [s[0]] + s[1..];
      CountOnce(s[1..], x);
      if s[0] == x {
        assert x !in s[1..];
      }
    }
  }

  method GenerateStg6Combo(draws: seq<seq<nat>>) returns (comb: seq<string>)
    requires ColumnDraws(draws)
    ensures Spells(comb, draws) && Linked(comb)
  {
    var matrix: seq<seq<int>> := [];
    for i := 0 to ANSWERS
      invariant matrix == seq(i, _ => [])
    {
      matrix := matrix + [[]];
    }
    for j := 0 to POSITIONS
      invariant |matrix| == ANSWERS && forall i :: 0 <= i < ANSWERS ==> |matrix[i]| == j
      invariant forall i, k :: 0 <= i < ANSWERS && 0 <= k < j ==> matrix[i][k] == Shuffled(DIGITS, draws[k])[i]
    {
      var array_ := new int[] [0, 1, 2, 3];
      assert array_[..] == DIGITS;
      Shuffle(array_, draws[j]);
      assert array_[..] == Shuffled(DIGITS, draws[j]);
      ghost var before := matrix;
      for i := 0 to ANSWERS
        invariant |matrix| == ANSWERS
        invariant forall k :: 0 <= k < i ==> matrix[k] == before[k] + [array_[k]]
        invariant forall k :: i <= k < ANSWERS ==> matrix[k] == before[k]
      {
        matrix := matrix[i := matrix[i] + [array_[i]]];
      }
    }
    forall i, j | 0 <= i < ANSWERS && 0 <= j < POSITIONS
      ensures 0 <= matrix[i][j] < ANSWERS
    {
      ShuffledDigits(draws[j]);
    }
    comb := [];
    for i := 0 to ANSWERS
      invariant |comb| == i
      invariant forall k :: 0 <= k < i ==> |comb[k]| == POSITIONS
      invariant forall k, j :: 0 <= k < i && 0 <= j < POSITIONS ==> comb[k][j] == ToString(matrix[k][j])
    {
      var c := "";
      for j := 0 to POSITIONS
        invariant |c| == j
        invariant forall k :: 0 <= k < j ==> c[k] == ToString(matrix[i][k])
      {
        c := c + [ToString(matrix[i][j])];
      }
      comb := comb + [c];
    }
    forall j | 0 <= j < POSITIONS
      ensures Column(comb, j) == Text(Shuffled(DIGITS, draws[j]))
    {
      ShuffledDigits(draws[j]);
    }
    SpellsLinked(comb, draws);
  }

  lemma SpellsLinked(comb: seq<string>, draws: seq<seq<nat>>)
    requires ColumnDraws(draws) && Spells(comb, draws)
    ensures Linked(comb)
  {
    forall j | 0 <= j < POSITIONS
      ensures UsesEachDigitOnce(Column(comb, j))
    {
      ShuffledDigits(draws[j]);
    }
  }

  ghost function Digits(c: string): (d: seq<int>)
    ensures |d| == |c|
  {
    seq(|c|, i requires 0 <= i < |c| => c[i] as int - '0' as int)
  }

  lemma SameSizeEqual<T>(m: multiset<T>, n: multiset<T>)
    requires m <= n && |m| == |n|
    ensures m == n
  {
    assert n == m + (n - m);
    assert |n - m| == 0;
  }

  lemma DigitsPermuted(c: string)
    requires |c| == ANSWERS && UsesEachDigitOnce(c)
    ensures multiset(Digits(c)) == multiset(DIGITS) && Text(Digits(c)) == c
  {
    var d := Digits(c);
    forall x: int
      ensures multiset(d)[x] <= multiset(DIGITS)[x]
    {
      CountOnce(d, x);
      if x in multiset(d) {
        assert DIGITS[x] == x;
        assert x in multiset(DIGITS);
      }
    }
    SameSizeEqual(multiset(d), multiset(DIGITS));
  }

  /** The generator reaches every linked set of answers, and each from one set of draws only. */
  lemma LinkedCombosAreExactlyTheDrawn(comb: seq<string>)
    ensures Linked(comb) <==> exists draws: seq<seq<nat>> :: ColumnDraws(draws) && Spells(comb, draws)
    ensures forall d: seq<seq<nat>>, e: seq<seq<nat>> ::
              ColumnDraws(d) && ColumnDraws(e) && Spells(comb, d) && Spells(comb, e) ==> d == e
  {
    if Linked(comb) {
      ghost var draws := DrawsFor(comb);
      assert ColumnDraws(draws) && Spells(comb, draws);
    }
    forall draws: seq<seq<nat>> | ColumnDraws(draws) && Spells(comb, draws)
      ensures Linked(comb)
    {
      SpellsLinked(comb, draws);
    }
    forall d: seq<seq<nat>>, e: seq<seq<nat>> |
      ColumnDraws(d) && ColumnDraws(e) && Spells(comb, d) && Spells(comb, e)
      ensures d == e
    {
      CombDeterminesDraws(comb, d, e);
    }
  }

  lemma CombDeterminesDraws(comb: seq<string>, d: seq<seq<nat>>, e: seq<seq<nat>>)
    requires ColumnDraws(d) && ColumnDraws(e) && Spells(comb, d) && Spells(comb, e)
    ensures d == e
  {
    forall j | 0 <= j < POSITIONS
      ensures d[j] == e[j]
    {
      ShuffledDigits(d[j]);
      ShuffledDigits(e[j]);
      TextInjective(Shuffled(DIGITS, d[j]), Shuffled(DIGITS, e[j]));
      ShuffledDeterminesDraws(DIGITS, d[j], e[j]);
    }
  }

  lemma TextInjective(c: seq<int>, d: seq<int>)
    requires |c| == |d| && Text(c) == Text(d)
    requires forall i :: 0 <= i < |c| ==> 0 <= c[i] < ANSWERS && 0 <= d[i] < ANSWERS
    ensures c == d
  {
    forall i | 0 <= i < |c|
      ensures c[i] == d[i]
    {
      assert Text(c)[i] == Text(d)[i];
    }
  }

  ghost function DrawsFor(comb: seq<string>): (draws: seq<seq<nat>>)
    requires Linked(comb)
    ensures ColumnDraws(draws) && Spells(comb, draws)
  {
    assert forall j :: 0 <= j < POSITIONS ==>
        var d := DrawsForColumn(Column(comb, j));
        |d| == ANSWERS && InRange(d) && Text(Shuffled(DIGITS, d)) == Column(comb, j);
    seq(POSITIONS, j requires 0 <= j < POSITIONS => DrawsForColumn(Column(comb, j)))
  }

  lemma ColumnIsDrawn(c: string)
    requires |c| == ANSWERS && UsesEachDigitOnce(c)
    ensures exists d: seq<nat> :: |d| == ANSWERS && InRange(d) && Text(Shuffled(DIGITS, d)) == c
  {
    DigitsPermuted(c);
    assert DIGITS[..ANSWERS] == DIGITS && Digits(c)[..ANSWERS] == Digits(c);
    var d := DrawsReaching(DIGITS, Digits(c), ANSWERS);
  }

  ghost function DrawsForColumn(c: string): (d: seq<nat>)
    requires |c| == ANSWERS && UsesEachDigitOnce(c)
    ensures |d| == ANSWERS && InRange(d) && Text(Shuffled(DIGITS, d)) == c
  {
    ColumnIsDrawn(c);
    var d: seq<nat> :| |d| == ANSWERS && InRange(d) && Text(Shuffled(DIGITS, d)) == c;
    d
  }

  // ----- afterSetup: the 26 books of stage 1 -----

  /** Property "stg1_b<i>" of the event instance is entry i of the result. */
  method AfterSetup(draws: seq<nat>) returns (properties: seq<int>)
    requires |draws| == 26 && InRange(draws)
    ensures exists books :: InRuns(books) && properties == Shuffled(books, draws)
    ensures |properties| == 26 && ShelvedBooks(properties)
  {
    var books := new int[] [-1, -1, -1, -1, -1, 0, 0, 0, 0, 0, 0, 0, -1, -1, -1, -1, -1, 1, 1, 1, 1, 1, 1, 1, 2, 3];
    ghost var before := books[..];
    assert InRuns(before);
    Shuffle(books, draws);
    properties := books[..];
    ShelvingsAreExactlyTheDrawn(before, properties);
  }

  ghost predicate ShelvedBooks(properties: seq<int>) {
    var m := multiset(properties);
    m[-1] == 10 && m[0] == 7 && m[1] == 7 && m[2] == 1 && m[3] == 1
  }

  lemma {:induction false} CountEqual(s: seq<int>, x: int)
    requires forall i :: 0 <= i < |s| ==> s[i] == x
    ensures forall y :: multiset(s)[y] == if y == x then |s| else 0
  {
    if |s| > 0 {
      assert s == [s[0]] + s[1..];
      CountEqual(s[1..], x);
    }
  }

  /** The runs in which the literal lists the books. */
  ghost predicate InRuns(b: seq<int>) {
    && |b| == 26
    && (forall i :: 0 <= i < 5 ==> b[i] == -1)
    && (forall i :: 5 <= i < 12 ==> b[i] == 0)
    && (forall i :: 12 <= i < 17 ==> b[i] == -1)
    && (forall i :: 17 <= i < 24 ==> b[i] == 1)
    && b[24] == 2 && b[25] == 3
  }

  lemma RunsAreShelved(b: seq<int>)
    requires InRuns(b)
    ensures ShelvedBooks(b) && forall x :: x in multiset(b) ==> -1 <= x <= 3
  {
    CountEqual(b[..5], -1);
    CountEqual(b[5..12], 0);
    CountEqual(b[12..17], -1);
    CountEqual(b[17..24], 1);
    CountEqual(b[24..25], 2);
    CountEqual(b[25..], 3);
    assert b == b[..5] + (b[5..12] + (b[12..17] + (b[17..24] + (b[24..25] + b[25..]))));
  }

  lemma RearrangementIsDrawn(b: seq<int>, properties: seq<int>)
    requires |b| == |properties| && multiset(b) == multiset(properties)
    ensures exists draws: seq<nat> :: |draws| == |b| && InRange(draws) && Shuffled(b, draws) == properties
  {
    assert b[..|b|] == b && properties[..|b|] == properties;
    var draws := DrawsReaching(b, properties, |b|);
  }

  lemma SameBooks(b: seq<int>, properties: seq<int>)
    requires InRuns(b) && |properties| == 26 && ShelvedBooks(properties)
    ensures multiset(b) == multiset(properties)
  {
    RunsAreShelved(b);
    SameSizeEqual(multiset(b), multiset(properties));
  }

  /** The shelvings that come out of some draws are exactly those of the same 26 books. */
  lemma ShelvingsAreExactlyTheDrawn(b: seq<int>, properties: seq<int>)
    requires InRuns(b)
    ensures |properties| == 26 && ShelvedBooks(properties)
            <==> exists draws: seq<nat> :: |draws| == 26 && InRange(draws) && Shuffled(b, draws) == properties
  {
    if |properties| == 26 && ShelvedBooks(properties) {
      SameBooks(b, properties);
      RearrangementIsDrawn(b, properties);
    }
    forall draws: seq<nat> | |draws| == 26 && InRange(draws) && Shuffled(b, draws) == properties
      ensures ShelvedBooks(properties)
    {
      ShuffledPermutes(b, draws);
      RunsAreShelved(b);
    }
  }
}
