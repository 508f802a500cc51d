/** The refining conversation of scripts/npc/1012002.js. */
module Vicious {
  import opened Crafting

  // ----- the recipe tables -----

  const MATERIALS := 4
  const START := -1

  function Items(t: int): seq<int> {
    match t
    case 0 => [1452002, 1452003, 1452001, 1452000, 1452005, 1452006, 1452007]
    case 1 => [1462001, 1462002, 1462003, 1462000, 1462004, 1462005, 1462006, 1462007]
    case 2 => [1082012, 1082013, 1082016, 1082048, 1082068, 1082071, 1082084, 1082089]
    case 3 => [1082015, 1082014, 1082017, 1082018, 1082049, 1082050, 1082069, 1082070, 1082072, 1082073, 1082085,
               1082083, 1082090, 1082091]
    case 4 => [4003001, 4003001, 4003000]
    case 5 => [2060000, 2061000, 2060001, 2061001, 2060002, 2061002]
    case _ => []
  }

  function MatSet(t: int): seq<Cell> {
    match t
    case 0 => [Many([4003001, 4000000]), Many([4011001, 4003000]), Many([4003001, 4000016]),
               Many([4011001, 4021006, 4003000]), Many([4011001, 4011006, 4021003, 4021006, 4003000]),
               Many([4011004, 4021000, 4021004, 4003000]), Many([4021008, 4011001, 4011006, 4003000, 4000014])]
    case 1 => [Many([4003001, 4003000]), Many([4011001, 4003001, 4003000]), Many([4011001, 4003001, 4003000]),
               Many([4011001, 4021006, 4021002, 4003000]), Many([4011001, 4011005, 4021006, 4003001, 4003000]),
               Many([4021008, 4011001, 4011006, 4021006, 4003000]), Many([4021008, 4011004, 4003001, 4003000]),
               Many([4021008, 4011006, 4021006, 4003001, 4003000])]
    case 2 => [Many([4000021, 4000009]), Many([4000021, 4000009, 4011001]), Many([4000021, 4000009, 4011006]),
               Many([4000021, 4011006, 4021001]), Many([4011000, 4011001, 4000021, 4003000]),
               Many([4011001, 4021000, 4021002, 4000021, 4003000]), Many([4011004, 4011006, 4021002, 4000030, 4003000]),
               Many([4011006, 4011007, 4021006, 4000030, 4003000])]
    case 3 => [Many([1082013, 4021003]), Many([1082013, 4021000]), Many([1082016, 4021000]), Many([1082016, 4021008]),
               Many([1082048, 4021003]), Many([1082048, 4021008]), Many([1082068, 4011002]), Many([1082068, 4011006]),
               Many([1082071, 4011006]), Many([1082071, 4021008]), Many([1082084, 4011000, 4021000]),
               Many([1082084, 4011006, 4021008]), Many([1082089, 4021000, 4021007]), Many([1082089, 4021007, 4021008])]
    case 4 => [One(4000003), One(4000018), Many([4011000, 4011001])]
    case 5 => [Many([4003001, 4003004]), Many([4003001, 4003004]), Many([4011000, 4003001, 4003004]),
               Many([4011000, 4003001, 4003004]), Many([4011001, 4003001, 4003005]), Many([4011001, 4003001, 4003005])]
    case _ => []
  }

  function MatQtySet(t: int): seq<Cell> {
    match t
    case 0 => [Many([5, 30]), Many([1, 3]), Many([30, 50]), Many([2, 2, 8]), Many([5, 5, 3, 3, 30]),
               Many([7, 6, 3, 35]), Many([1, 10, 3, 40, 50])]
    case 1 => [Many([7, 2]), Many([1, 20, 5]), Many([1, 50, 8]), Many([2, 1, 1, 10]), Many([5, 5, 3, 50, 15]),
               Many([1, 8, 4, 2, 30]), Many([2, 6, 30, 30]), Many([2, 5, 3, 40, 40])]
    case 2 => [Many([15, 20]), Many([20, 20, 2]), Many([40, 50, 2]), Many([50, 2, 1]), Many([1, 3, 60, 15]),
               Many([3, 1, 3, 80, 25]), Many([3, 1, 2, 40, 35]), Many([2, 1, 8, 50, 50])]
    case 3 => [Many([1, 2]), Many([1, 1]), Many([1, 3]), Many([1, 1]), Many([1, 3]), Many([1, 1]), Many([1, 4]),
               Many([1, 2]), Many([1, 4]), Many([1, 2]), Many([1, 1, 5]), Many([1, 2, 2]), Many([1, 5, 1]),
               Many([1, 2, 2])]
    case 4 => [One(10), One(5), Many([1, 1])]
    case 5 => [Many([1, 1]), Many([1, 1]), Many([1, 3, 10]), Many([1, 3, 10]), Many([1, 5, 15]), Many([1, 5, 15])]
    case _ => []
  }

  function CostSet(t: int): seq<int> {
    match t
    case 0 => [800, 2000, 3000, 5000, 30000, 40000, 80000]
    case 1 => [1000, 2000, 3000, 10000, 30000, 50000, 80000, 200000]
    case 2 => [5000, 10000, 15000, 20000, 30000, 40000, 50000, 70000]
    case 3 => [7000, 7000, 10000, 12000, 15000, 20000, 22000, 25000, 30000, 40000, 55000, 60000, 70000, 80000]
    case 4 => [0, 0, 0]
    case 5 => [0, 0, 0, 0, 0, 0]
    case _ => []
  }

  function Sizes(t: int): nat {
    [7, 8, 8, 14, 3, 6, 0][if 0 <= t < 6 then t else 6]
  }

  lemma TablesAligned(t: int)
    ensures |Items(t)| == |MatSet(t)| == |MatQtySet(t)| == |CostSet(t)| == Sizes(t)
  {
  }

  function Row(t: int, i: nat): Recipe
    requires i < Sizes(t)
  {
    TablesAligned(t);
    Recipe(Items(t)[i], MatSet(t)[i], MatQtySet(t)[i], CostSet(t)[i])
  }

  lemma BowRowsCheck(i: nat)
    requires i < 7
    ensures Checked(Row(0, i))
  {
  }

  lemma CrossbowRowsCheck0To3(i: nat)
    requires i < 4
    ensures Checked(Row(1, i))
  {
  }

  lemma CrossbowRowsCheck4To7(i: nat)
    requires 4 <= i < 8
    ensures Checked(Row(1, i))
  {
  }

  lemma GloveRowsCheck0To3(i: nat)
    requires i < 4
    ensures Checked(Row(2, i))
  {
  }

  lemma GloveRowsCheck4To7(i: nat)
    requires 4 <= i < 8
    ensures Checked(Row(2, i))
  {
  }

  lemma UpgradeRowsCheck0To4(i: nat)
    requires i < 5
    ensures Checked(Row(3, i))
  {
  }

  lemma UpgradeRowsCheck5To9(i: nat)
    requires 5 <= i < 10
    ensures Checked(Row(3, i))
  {
  }

  lemma UpgradeRowsCheck10To13(i: nat)
    requires 10 <= i < 14
    ensures Checked(Row(3, i))
  {
  }

  lemma MaterialRowsCheck(i: nat)
    requires i < 3
    ensures Checked(Row(4, i))
  {
  }

  lemma ArrowRowsCheck(i: nat)
    requires i < 6
    ensures Checked(Row(5, i))
  {
  }

  lemma RowIsSound(t: int, i: nat)
    requires i < Sizes(t)
    ensures Sound(Row(t, i))
  {
    match t {
      case 0 => BowRowsCheck(i);
      case 1 => if i < 4 { CrossbowRowsCheck0To3(i); } else { CrossbowRowsCheck4To7(i); }
      case 2 => if i < 4 { GloveRowsCheck0To3(i); } else { GloveRowsCheck4To7(i); }
      case 3 =>
        if i < 5 { UpgradeRowsCheck0To4(i); }
        else if i < 10 { UpgradeRowsCheck5To9(i); }
        else { UpgradeRowsCheck10To13(i); }
      case 4 => MaterialRowsCheck(i);
      case 5 => ArrowRowsCheck(i);
    }
    CheckedIsSound(Row(t, i));
  }

  /** Pieces received for qty crafts. */
  function Received(item: int, qty: int): int {
    if 2060000 <= item <= 2060002 then 1000 - (item - 2060000) * 100
    else if 2061000 <= item <= 2061002 then 1000 - (item - 2061000) * 100
    else if item == 4003000 then 15 * qty
    else qty
  }

  // ----- the conversation -----

  datatype Talk = Talk(status: int, selectedType: int, selectedItem: int, items: seq<int>,
                       recipe: Recipe, qty: int, closed: bool)

  /** Menus are answered with one of their entries; the number prompt with any number. */
  ghost predicate Legal(t: Talk, r: Reply) {
    && !t.closed
    && (r.mode == 1 ==>
          && (t.status == -1 ==> 0 <= r.selection < 6)
          && (t.status == 0 ==> 0 <= r.selection < 3)
          && (t.status == 1 && t.selectedType != MATERIALS ==> 0 <= r.selection < |t.items|))
  }

  ghost function Replied(t: Talk, r: Reply): Talk
    requires Ready(t) && Legal(t, r)
  {
    var u := t.(status := t.status + 1);
    if r.mode != 1 then u.(closed := true)
    else if u.status == 0 then
      if r.selection == MATERIALS then u.(selectedType := MATERIALS)
      else u.(selectedType := r.selection, items := Items(r.selection), status := 1)
    else if u.status == 1 then
      u.(selectedItem := r.selection, items := Items(MATERIALS), recipe := Row(MATERIALS, r.selection))
    else if u.status == 2 then
      if t.selectedType == MATERIALS then u.(qty := Quantity(r.selection))
      else u.(selectedItem := r.selection, recipe := Row(t.selectedType, r.selection))
    else u.(closed := true)
  }

  /** What is known at each page; at the last one the recipe is the one that was prompted. */
  ghost predicate Ready(t: Talk) {
    t.closed ||
    match t.status
    case -1 => t.qty == 1
    case 0 => t.selectedType == MATERIALS
    case 1 =>
      0 <= t.selectedType < 6 &&
      if t.selectedType == MATERIALS then Prompted(t) else t.items == Items(t.selectedType) && t.qty == 1
    case 2 => Prompted(t) && t.qty >= 1 && (t.selectedType != MATERIALS ==> t.qty == 1)
    case _ => false
  }

  ghost predicate Prompted(t: Talk) {
    && 0 <= t.selectedType < 6 && 0 <= t.selectedItem < Sizes(t.selectedType)
    && t.recipe == Row(t.selectedType, t.selectedItem)
  }

  lemma RepliesKeepReady(t: Talk, r: Reply)
    requires Ready(t) && Legal(t, r)
    ensures Ready(Replied(t, r))
  {
  }

  ghost predicate Buys(t: Talk, r: Reply, p: Purse) {
    !t.closed && t.status == 2 && r.mode == 1 && r.canHold && Affords(p, t.recipe, t.qty)
  }

  /** One reply: the page turns, and the purse changes in the final exchange only. */
  ghost predicate Next(s: State<Talk>, r: Reply, s': State<Talk>)
    requires Ready(s.talk) && Legal(s.talk, r)
  {
    && s'.talk == Replied(s.talk, r)
    && if Buys(s.talk, r, s.purse)
       then Sound(s.talk.recipe)
            && Exchanged(s.purse, s'.purse, s.talk.recipe, s.talk.qty, Received(s.talk.recipe.item, s.talk.qty))
       else s'.purse == s.purse
  }

  class Conversation {
    const customer: Customer
    var status: int
    var selectedType: int
    var selectedItem: int
    var items: seq<int>
    var item: int
    var mats: Cell
    var matQty: Cell
    var cost: int
    var qty: int
    var closed: bool

    ghost function View(): State<Talk>
      reads this, customer
    {
      State(Talk(status, selectedType, selectedItem, items, Recipe(item, mats, matQty, cost), qty, closed),
            customer.View())
    }

    constructor (customer: Customer)
      ensures this.customer == customer && View().talk.status == -1 && Ready(View().talk) && !closed
    {
      this.customer := customer;
      status, selectedType, selectedItem, items, qty, closed := -1, -1, -1, [], 1, false;
      item, mats, matQty, cost := 0, Many([]), Many([]), 0;
    }

    method Action(mode: int, selection: int, canHold: bool)
      requires Ready(View().talk) && Legal(View().talk, Reply(mode, selection, canHold))
      modifies this, customer
      ensures Next(old(View()), Reply(mode, selection, canHold), View())
    {
      status := status + 1;
      if mode != 1 {
        closed := true;
        return;
      }
      if status == 0 {
        if selection != 4 {
          items := Items(selection);
        }
        selectedType := selection;
        if selection != 4 {
          status := status + 1;
        }
      } else if status == 1 {
        selectedItem := selection;
        items := Items(4);
        Prepare(4);
      } else if status == 2 {
        if selectedType != 4 {
          selectedItem := selection;
        } else {
          qty := Quantity(selection);
        }
        if selectedType != 4 {
          TablesAligned(selectedType);
          Prepare(selectedType);
        }
      } else if status == 3 {
        Exchange(canHold);
        closed := true;
      }
    }

    method Prepare(t: int)
      requires 0 <= selectedItem < Sizes(t) && items == Items(t)
      modifies `item, `mats, `matQty, `cost
      ensures Recipe(item, mats, matQty, cost) == Row(t, selectedItem)
    {
      TablesAligned(t);
      item := items[selectedItem];
      mats := MatSet(t)[selectedItem];
      matQty := MatQtySet(t)[selectedItem];
      cost := CostSet(t)[selectedItem];
    }

    method Exchange(canHold: bool)
      requires Prompted(View().talk) && qty >= 1
      modifies customer
      ensures Sound(Recipe(item, mats, matQty, cost))
      ensures if canHold && Affords(old(customer.View()), Recipe(item, mats, matQty, cost), qty)
              then Exchanged(old(customer.View()), customer.View(), Recipe(item, mats, matQty, cost), qty,
                             Received(item, qty))
              else customer.View() == old(customer.View())
    {
      var r := Recipe(item, mats, matQty, cost);
      RowIsSound(selectedType, selectedItem);
      if customer.mesos < cost * qty {
        return;
      }
      var complete := customer.HasMaterials(r, qty);
      if complete {
        var recvQty;
        if item >= 2060000 && item <= 2060002 {
          recvQty := 1000 - (item - 2060000) * 100;
        } else if item >= 2061000 && item <= 2061002 {
          recvQty := 1000 - (item - 2061000) * 100;
        } else if item == 4003000 {
          recvQty := 15 * qty;
        } else {
          recvQty := qty;
        }
        if canHold {
          customer.Trade(r, qty, recvQty);
        }
      }
    }
  }

  // ----- whole conversations -----

  ghost predicate IsConversation(states: seq<State<Talk>>, replies: seq<Reply>) {
    && |states| == |replies| + 1
    && states[0].talk.status == START && !states[0].talk.closed && Ready(states[0].talk)
    && forall i :: 0 <= i < |replies| && Ready(states[i].talk) ==>
         Legal(states[i].talk, replies[i]) && Next(states[i], replies[i], states[i + 1])
  }

  /** What the open page knows of the replies that led to it. */
  ghost predicate Remembers(t: Talk, replies: seq<Reply>) {
    t.closed ||
    ((forall i :: 0 <= i < |replies| ==> replies[i].mode == 1) &&
     match |replies|
     case 0 => t.status == START && t.qty == 1
     case 1 =>
       t.selectedType == replies[0].selection && t.status == (if t.selectedType == 4 then 0 else 1) && t.qty == 1
     case 2 => Chosen(t, replies) && t.status == (if t.selectedType == 4 then 1 else 2) && t.qty == 1
     case 3 => Chosen(t, replies) && t.selectedType == 4 && t.status == 2 && t.qty == Quantity(replies[2].selection)
     case _ => false)
  }

  ghost predicate Chosen(t: Talk, replies: seq<Reply>)
    requires |replies| >= 2
  {
    && t.selectedType == replies[0].selection && t.selectedItem == replies[1].selection
    && 0 <= t.selectedItem < Sizes(t.selectedType) && t.recipe == Row(t.selectedType, t.selectedItem)
  }

  lemma ReplyIsRemembered(t: Talk, replies: seq<Reply>, r: Reply)
    requires Ready(t) && Legal(t, r) && Remembers(t, replies)
    ensures Remembers(Replied(t, r), replies + [r])
  {
  }

  /** The pieces that an order brings: 1000 arrows of the first kind for either weapon, 100 fewer
      of each better one, however often; screws by the 15. */
  function Pieces(o: Order): int {
    if o.kind == 5 then 1000 - 100 * (o.entry / 2) else if o.kind == 4 && o.entry == 2 then 15 * o.qty else o.qty
  }

  lemma ReceivedIsPieces(o: Order)
    requires 0 <= o.entry < Sizes(o.kind)
    ensures Received(Row(o.kind, o.entry).item, o.qty) == Pieces(o)
  {
    ItemKinds(o.kind, o.entry);
  }

  lemma ItemKinds(t: int, i: nat)
    requires i < Sizes(t)
    ensures |Items(t)| == Sizes(t)
    ensures t == 5 ==> Items(t)[i] == (if i % 2 == 0 then 2060000 else 2061000) + i / 2
    ensures t != 5 ==> !(2060000 <= Items(t)[i] <= 2061002) && (Items(t)[i] == 4003000 <==> t == 4 && i == 2)
  {
  }

  lemma {:induction false} EveryPageRemembers(states: seq<State<Talk>>, replies: seq<Reply>, k: nat)
    requires IsConversation(states, replies) && k <= |replies|
    requires forall i :: 0 <= i <= |replies| ==> Ready(states[i].talk)
    ensures Remembers(states[k].talk, replies[..k])
  {
    if k > 0 {
      EveryPageRemembers(states, replies, k - 1);
      ReplyIsRemembered(states[k - 1].talk, replies[..k - 1], replies[k - 1]);
      assert replies[..k] == replies[..k - 1] + [replies[k - 1]];
    }
  }

  /** The replies are an order exactly if the last one is a yes to the last page, and the page
      is about that order. */
  lemma OrderIsPrompted(t: Talk, replies: seq<Reply>, r: Reply)
    requires Ready(t) && Legal(t, r) && Remembers(t, replies)
    ensures var o := Ordered(replies + [r]);
            && (o.Some? <==> t.status == 2 && r.mode == 1)
            && (o.Some? ==>
                  && 0 <= o.value.kind < 6 && 0 <= o.value.entry < Sizes(o.value.kind)
                  && t.recipe == Row(o.value.kind, o.value.entry) && t.qty == o.value.qty)
  {
    var all := replies + [r];
    assert all[..|replies|] == replies && all[|replies|] == r;
    assert forall i :: 0 <= i < |replies| ==> all[i] == replies[i];
  }

  lemma LastReplyFillsTheOrder(s: State<Talk>, replies: seq<Reply>, r: Reply, s': State<Talk>)
    requires Ready(s.talk) && Legal(s.talk, r) && Next(s, r, s') && Remembers(s.talk, replies)
    ensures Filled(s.purse, replies + [r], s')
  {
    OrderIsPrompted(s.talk, replies, r);
    if Ordered(replies + [r]).Some? {
      var o := Ordered(replies + [r]).value;
      ReceivedIsPieces(o);
      RowIsSound(o.kind, o.entry);
    }
  }

  /** The purse a before a conversation and the state z after it, in terms of the replies. */
  ghost predicate Filled(a: Purse, replies: seq<Reply>, z: State<Talk>) {
    match Ordered(replies)
    case None => z.purse == a
    case Some(o) =>
      && 0 <= o.entry < Sizes(o.kind) && Sound(Row(o.kind, o.entry))
      && if replies[|replies| - 1].canHold && Affords(a, Row(o.kind, o.entry), o.qty)
         then z.talk.closed && Exchanged(a, z.purse, Row(o.kind, o.entry), o.qty, Pieces(o))
         else z.purse == a
  }

  /** And the order is for one of the types on offer. */
  ghost predicate Honoured(a: Purse, replies: seq<Reply>, z: State<Talk>) {
    Filled(a, replies, z) && (Ordered(replies).Some? ==> 0 <= Ordered(replies).value.kind < 6)
  }

  /** Whatever the customer replies, a conversation of any length changes the purse only by the
      one exchange that its replies order, all or nothing; only processed materials are
      made more than once at a time. */
  lemma {:induction false} ConversationIsAtomic(states: seq<State<Talk>>, replies: seq<Reply>)
    requires IsConversation(states, replies)
    ensures Honoured(states[0].purse, replies, states[|replies|])
  {
    forall i | 0 <= i < |replies| && Ready(states[i].talk) ensures Ready(states[i + 1].talk) {
      RepliesKeepReady(states[i].talk, replies[i]);
    }
    HoldsThroughout((s: State<Talk>) => Ready(s.talk), states, |replies|);
    if replies != [] {
      var n := |replies| - 1;
      forall i | 0 <= i < n ensures states[i].purse == states[i + 1].purse {
        assert Legal(states[i + 1].talk, replies[i + 1]);
      }
      HoldsThroughout((s: State<Talk>) => s.purse == states[0].purse, states, n);
      EveryPageRemembers(states, replies, n);
      LastReplyFillsTheOrder(states[n], replies[..n], replies[n], states[n + 1]);
      OrderIsPrompted(states[n].talk, replies[..n], replies[n]);
      assert replies == replies[..n] + [replies[n]];
    }
  }
}
