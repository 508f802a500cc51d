/** What the refining NPCs of scripts/npc/1012002.js and scripts/npc/1052002.js share:
    recipes whose materials are a single item or a list, and the final exchange. */
module Crafting {
  import opened Basics

  /** A table cell that the scripts write as a number or as an array. */
  datatype Cell = One(value: int) | Many(values: seq<int>)

  function Values(c: Cell): seq<int> {
    if c.One? then [c.value] else c.values
  }

  datatype Recipe = Recipe(item: int, mats: Cell, matQty: Cell, cost: int)

  datatype Purse = Purse(bag: multiset<int>, mesos: int)

  /** A conversation and the purse of the one who holds it. */
  datatype State<T> = State(talk: T, purse: Purse)

  /** mode is 1 for "go on"; canHold is the host's answer at the exchange. */
  datatype Reply = Reply(mode: int, selection: int, canHold: bool)

  /** What holds of the first state and is kept by each of k steps holds of the first k + 1. */
  lemma {:induction false} HoldsThroughout<S(!new)>(p: S -> bool, states: seq<S>, k: nat)
    requires k < |states| && p(states[0]) && forall i :: 0 <= i < k && p(states[i]) ==> p(states[i + 1])
    ensures forall i :: 0 <= i <= k ==> p(states[i])
  {
    if k > 0 {
      HoldsThroughout(p, states, k - 1);
      var i := k - 1;
      assert p(states[i]) ==> p(states[i + 1]);
    }
  }

  /** What a customer asks for: a row of the tables of one type, so many times. */
  datatype Order = Order(kind: int, entry: int, qty: int)

  /** Read off the replies alone: a type, one of its entries and a yes; for the materials, the
      fifth type, also a number before the yes, of which the size counts. */
  function Ordered(replies: seq<Reply>): Option<Order> {
    var n := |replies|;
    if exists i :: 0 <= i < n && replies[i].mode != 1 then None
    else if n == 3 && replies[0].selection != 4 then Some(Order(replies[0].selection, replies[1].selection, 1))
    else if n == 4 && replies[0].selection == 4 then
      var number := replies[2].selection;
      Some(Order(4, replies[1].selection, if number == 0 then 1 else if number < 0 then -number else number))
    else None
  }

  /** The number typed in, made positive. */
  function Quantity(selection: int): (qty: int)
    ensures qty >= 1
  {
    if selection > 0 then selection else if selection < 0 then -selection else 1
  }

  /** The tables agree in shape, quantities are positive, and no item occurs twice. */
  ghost predicate Sound(r: Recipe) {
    var m, q := Values(r.mats), Values(r.matQty);
    && r.mats.Many? == r.matQty.Many? && |m| == |q|
    && (forall i :: 0 <= i < |q| ==> q[i] > 0)
    && (forall i, j :: 0 <= i < j < |m| ==> m[i] != m[j])
    && r.item !in m && r.cost >= 0
  }

  /** The same for a row of at most five materials, one comparison at a time. */
  predicate Checked(r: Recipe) {
    var m, q := Values(r.mats), Values(r.matQty);
    && r.mats.Many? == r.matQty.Many? && |m| == |q| <= 5 && r.cost >= 0
    && (|m| > 0 ==> q[0] > 0 && m[0] != r.item)
    && (|m| > 1 ==> q[1] > 0 && m[1] != r.item && m[1] != m[0])
    && (|m| > 2 ==> q[2] > 0 && m[2] != r.item && m[2] != m[0] && m[2] != m[1])
    && (|m| > 3 ==> q[3] > 0 && m[3] != r.item && m[3] != m[0] && m[3] != m[1] && m[3] != m[2])
    && (|m| > 4 ==> q[4] > 0 && m[4] != r.item && m[4] != m[0] && m[4] != m[1] && m[4] != m[2] && m[4] != m[3])
  }

  lemma CheckedIsSound(r: Recipe)
    requires Checked(r)
    ensures Sound(r)
  {
  }

  /** How many of an item one piece takes. */
  ghost function Need(m: seq<int>, q: seq<int>, id: int): int
    requires |m| == |q|
  {
    if m == [] then 0 else Need(m[..|m| - 1], q[..|m| - 1], id) + if m[|m| - 1] == id then q[|m| - 1] else 0
  }

  lemma {:induction false} NeedAt(m: seq<int>, q: seq<int>, i: nat)
    requires |m| == |q| && i < |m| && forall i, j :: 0 <= i < j < |m| ==> m[i] != m[j]
    ensures Need(m, q, m[i]) == q[i]
  {
    var n := |m| - 1;
    if i < n {
      NeedAt(m[..n], q[..n], i);
    } else {
      NeedNothing(m[..n], q[..n], m[n]);
    }
  }

  lemma {:induction false} NeedNothing(m: seq<int>, q: seq<int>, id: int)
    requires |m| == |q| && id !in m
    ensures Need(m, q, id) == 0
  {
    if m != [] {
      NeedNothing(m[..|m| - 1], q[..|m| - 1], id);
    }
  }

  /** The player can pay for qty pieces. */
  ghost predicate Affords(p: Purse, r: Recipe, qty: int) {
    p.mesos >= r.cost * qty
    && forall i :: 0 <= i < |Values(r.mats)| && i < |Values(r.matQty)| ==>
         p.bag[Values(r.mats)[i]] >= Values(r.matQty)[i] * qty
  }

  /** Exactly the recipe's materials and fee go, exactly the product comes. */
  ghost predicate Exchanged(before: Purse, after: Purse, r: Recipe, qty: int, received: int)
    requires |Values(r.mats)| == |Values(r.matQty)|
  {
    && after.mesos == before.mesos - r.cost * qty >= 0
    && forall id :: after.bag[id]
         == before.bag[id] - Need(Values(r.mats), Values(r.matQty), id) * qty + if id == r.item then received else 0
  }

  /** Item by item: each material falls by its quantity times qty, the product rises by
      what is received, everything else stays. */
  lemma ExchangeItemised(before: Purse, after: Purse, r: Recipe, qty: int, received: int)
    requires Sound(r) && Exchanged(before, after, r, qty, received)
    ensures var m, q := Values(r.mats), Values(r.matQty);
            && (forall i :: 0 <= i < |m| ==> after.bag[m[i]] == before.bag[m[i]] - q[i] * qty)
            && after.bag[r.item] == before.bag[r.item] + received
            && (forall id :: id !in m && id != r.item ==> after.bag[id] == before.bag[id])
            && after.mesos == before.mesos - r.cost * qty >= 0
  {
    var m, q := Values(r.mats), Values(r.matQty);
    forall i | 0 <= i < |m|
      ensures after.bag[m[i]] == before.bag[m[i]] - q[i] * qty
    {
      NeedAt(m, q, i);
    }
    forall id | id !in m
      ensures Need(m, q, id) * qty == 0
    {
      NeedNothing(m, q, id);
    }
  }

  lemma {:induction false} MaterialsCanGo(bag: multiset<int>, m: seq<int>, q: seq<int>, qty: int)
      returns (rest: multiset<int>)
    requires |m| == |q| && (forall i, j :: 0 <= i < j < |m| ==> m[i] != m[j])
    requires forall i :: 0 <= i < |m| ==> bag[m[i]] >= q[i] * qty >= 0
    ensures forall id :: rest[id] == bag[id] - Need(m, q, id) * qty
  {
    if m == [] {
      rest := bag;
    } else {
      var n := |m| - 1;
      var less := MaterialsCanGo(bag, m[..n], q[..n], qty);
      NeedNothing(m[..n], q[..n], m[n]);
      NeedNext(m, q, n, qty);
      assert m[..n + 1] == m && q[..n + 1] == q;
      rest := less[m[n] := less[m[n]] - q[n] * qty];
    }
  }

  /** A customer can pay exactly if the exchange is possible at all, that is, if it brings no
      count and no mesos below zero. */
  lemma AffordsIff(p: Purse, r: Recipe, qty: int, received: nat)
    requires Sound(r) && qty >= 1
    ensures Affords(p, r, qty) <==> exists after :: Exchanged(p, after, r, qty, received)
  {
    var m, q := Values(r.mats), Values(r.matQty);
    if Affords(p, r, qty) {
      var rest := MaterialsCanGo(p.bag, m, q, qty);
      NeedNothing(m, q, r.item);
      var after := Purse(rest[r.item := rest[r.item] + received], p.mesos - r.cost * qty);
      assert Exchanged(p, after, r, qty, received);
    }
    forall after | Exchanged(p, after, r, qty, received)
      ensures Affords(p, r, qty)
    {
      ExchangeItemised(p, after, r, qty, received);
      forall i | 0 <= i < |m| ensures p.bag[m[i]] >= q[i] * qty {
        assert after.bag[m[i]] >= 0;
      }
    }
  }

  class Customer {
    var bag: multiset<int>
    var mesos: int

    ghost function View(): Purse
      reads this
    {
      Purse(bag, mesos)
    }

    constructor (bag: multiset<int>, mesos: int)
      ensures View() == Purse(bag, mesos)
    {
      this.bag, this.mesos := bag, mesos;
    }

    predicate HaveItem(id: int, quantity: int)
      reads this
    {
      bag[id] >= quantity
    }

    /** A removal of more than there is would leave a negative count. */
    method GainItem(id: int, quantity: int)
      requires bag[id] + quantity >= 0
      modifies `bag
      ensures bag == old(bag)[id := old(bag)[id] + quantity]
    {
      bag := bag[id := bag[id] + quantity];
    }

    method HasMaterials(r: Recipe, qty: int) returns (complete: bool)
      requires Sound(r)
      ensures complete <==> forall i :: 0 <= i < |Values(r.mats)| ==>
                              bag[Values(r.mats)[i]] >= Values(r.matQty)[i] * qty
    {
      complete := true;
      if r.mats.Many? {
        var i := 0;
        while complete && i < |r.mats.values|
          invariant 0 <= i <= |r.mats.values|
          invariant complete ==> forall k :: 0 <= k < i ==> bag[r.mats.values[k]] >= r.matQty.values[k] * qty
          invariant !complete ==> exists k :: 0 <= k < i && bag[r.mats.values[k]] < r.matQty.values[k] * qty
          decreases |r.mats.values| - i
        {
          if !HaveItem(r.mats.values[i], r.matQty.values[i] * qty) {
            complete := false;
          }
          i := i + 1;
        }
      } else if !HaveItem(r.mats.value, r.matQty.value * qty) {
        complete := false;
        assert bag[Values(r.mats)[0]] < Values(r.matQty)[0] * qty;
      }
    }

    /** The exchange itself, once everything has been checked. */
    method Trade(r: Recipe, qty: int, received: int)
      requires Sound(r) && qty >= 1 && received >= 0 && Affords(View(), r, qty)
      modifies this
      ensures Exchanged(old(View()), View(), r, qty, received)
    {
      TakeMaterials(r, qty);
      mesos := mesos - r.cost * qty;
      NeedNothing(Values(r.mats), Values(r.matQty), r.item);
      GainItem(r.item, received);
    }

    /** Takes the materials, one kind after the other; no count falls below zero on the way. */
    method TakeMaterials(r: Recipe, qty: int)
      requires Sound(r) && qty >= 1
      requires forall i :: 0 <= i < |Values(r.mats)| ==> bag[Values(r.mats)[i]] >= Values(r.matQty)[i] * qty
      modifies `bag
      ensures forall id :: bag[id] == old(bag)[id] - Need(Values(r.mats), Values(r.matQty), id) * qty
    {
      var m, q := Values(r.mats), Values(r.matQty);
      for i := 0 to |m|
        invariant forall id :: bag[id] == old(bag)[id] - Need(m[..i], q[..i], id) * qty
      {
        NeedNothing(m[..i], q[..i], m[i]);
        NeedNext(m, q, i, qty);
        GainItem(m[i], -(q[i] * qty));
      }
      assert m[..|m|] == m && q[..|q|] == q;
    }
  }

  lemma NeedNext(m: seq<int>, q: seq<int>, i: nat, qty: int)
    requires |m| == |q| && i < |m|
    ensures forall id :: Need(m[..i + 1], q[..i + 1], id) * qty
                         == Need(m[..i], q[..i], id) * qty + if id == m[i] then q[i] * qty else 0
  {
    assert m[..i + 1][..i] == m[..i] && q[..i + 1][..i] == q[..i];
  }
}
