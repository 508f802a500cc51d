/** The refining conversation of scripts/npc/1052002.js: equipment skips the number prompt
    by advancing the status twice. */
module ThiefRefiner {
  import opened Crafting

  // ----- the recipe tables -----

  const MATERIALS := 4
  const START := 0

  function Items(t: int): seq<int> {
    match t
    case 0 => [1082002, 1082029, 1082030, 1082031, 1082032, 1082037, 1082042, 1082046, 1082075, 1082065,
               1082092]
    case 1 => [1082033, 1082034, 1082038, 1082039, 1082043, 1082044, 1082047, 1082045, 1082076, 1082074,
               1082067, 1082066, 1082093, 1082094]
    case 2 => [1472001, 1472004, 1472007, 1472008, 1472011, 1472014, 1472018]
    case 3 => [1472002, 1472003, 1472005, 1472006, 1472009, 1472010, 1472012, 1472013, 1472015, 1472016,
               1472017, 1472019, 1472020]
    case 4 => [4003001, 4003001, 4003000]
    case _ => []
  }

  function MatSet(t: int): seq<Cell> {
    match t
    case 0 => [One(4000021), Many([4000021, 4000018]), Many([4000021, 4000015]), Many([4000021, 4000020]),
               Many([4011000, 4000021]), Many([4011000, 4011001, 4000021]), Many([4011001, 4000021, 4003000]),
               Many([4011001, 4011000, 4000021, 4003000]), Many([4021000, 4000014, 4000021, 4003000]),
               Many([4021005, 4021008, 4000030, 4003000]), Many([4011007, 4011000, 4021007, 4000030, 4003000])]
    case 1 => [Many([1082032, 4011002]), Many([1082032, 4021004]), Many([1082037, 4011002]), Many([1082037,
               4021004]), Many([1082042, 4011004]), Many([1082042, 4011006]), Many([1082046, 4011005]),
               Many([1082046, 4011006]), Many([1082075, 4011006]), Many([1082075, 4021008]), Many([1082065,
               4021000]), Many([1082065, 4011006, 4021008]), Many([1082092, 4011001, 4000014]), Many([1082092,
               4011006, 4000027])]
    case 2 => [Many([4011001, 4000021, 4003000]), Many([4011000, 4011001, 4000021, 4003000]), Many([1472000,
               4011001, 4000021, 4003001]), Many([4011000, 4011001, 4000021, 4003000]), Many([4011000, 4011001,
               4000021, 4003000]), Many([4011000, 4011001, 4000021, 4003000]), Many([4011000, 4011001, 4000030,
               4003000])]
    case 3 => [Many([1472001, 4011002]), Many([1472001, 4011006]), Many([1472004, 4011001]), Many([1472004,
               4011003]), Many([1472008, 4011002]), Many([1472008, 4011003]), Many([1472011, 4011004]),
               Many([1472011, 4021008]), Many([1472014, 4021000]), Many([1472014, 4011003]), Many([1472014,
               4021008]), Many([1472018, 4021000]), Many([1472018, 4021005])]
    case 4 => [One(4000003), One(4000018), Many([4011000, 4011001])]
    case _ => []
  }

  function MatQtySet(t: int): seq<Cell> {
    match t
    case 0 => [One(15), Many([30, 20]), Many([30, 20]), Many([30, 20]), Many([2, 40]), Many([2, 1, 10]),
               Many([2, 50, 10]), Many([3, 1, 60, 15]), Many([3, 200, 80, 30]), Many([3, 1, 40, 30]), Many([1,
               8, 1, 50, 50])]
    case 1 => [Many([1, 1]), Many([1, 1]), Many([1, 2]), Many([1, 2]), Many([1, 2]), Many([1, 1]), Many([1, 3]),
               Many([1, 2]), Many([1, 4]), Many([1, 2]), Many([1, 5]), Many([1, 2, 1]), Many([1, 7, 200]),
               Many([1, 7, 150])]
    case 2 => [Many([1, 20, 5]), Many([2, 1, 30, 10]), Many([1, 3, 20, 30]), Many([3, 2, 50, 20]), Many([4, 2,
               80, 25]), Many([3, 2, 100, 30]), Many([4, 2, 40, 35])]
    case 3 => [Many([1, 1]), Many([1, 1]), Many([1, 2]), Many([1, 2]), Many([1, 3]), Many([1, 3]), Many([1, 4]),
               Many([1, 1]), Many([1, 5]), Many([1, 5]), Many([1, 2]), Many([1, 6]), Many([1, 6])]
    case 4 => [One(10), One(5), Many([1, 1])]
    case _ => []
  }

  function CostSet(t: int): seq<int> {
    match t
    case 0 => [1000, 7000, 7000, 7000, 10000, 15000, 25000, 30000, 40000, 50000, 70000]
    case 1 => [5000, 7000, 10000, 12000, 15000, 20000, 22000, 25000, 40000, 50000, 55000, 60000, 70000, 80000]
    case 2 => [2000, 3000, 5000, 15000, 30000, 40000, 50000]
    case 3 => [1000, 2000, 3000, 5000, 10000, 15000, 20000, 25000, 30000, 30000, 35000, 40000, 40000]
    case 4 => [0, 0, 0]
    case _ => []
  }

  function Sizes(t: int): nat {
    [11, 14, 7, 13, 3, 0][if 0 <= t < 5 then t else 5]
  }

  lemma TablesAligned(t: int)
    ensures |Items(t)| == |MatSet(t)| == |MatQtySet(t)| == |CostSet(t)| == Sizes(t)
  {
  }

  function Row(t: int, i: nat): Recipe
    requires i < Sizes(t)
  {
    TablesAligned(t);
    Recipe(Items(t)[i], MatSet(t)[i], MatQtySet(t)[i], CostSet(t)[i])
  }

  lemma GloveRowsCheck0To5(i: nat)
    requires i < 6
    ensures Checked(Row(0, i))
  {
  }

  lemma GloveRowsCheck6To10(i: nat)
    requires 6 <= i < 11
    ensures Checked(Row(0, i))
  {
  }

  lemma GloveUpgradeRowsCheck0To6(i: nat)
    requires i < 7
    ensures Checked(Row(1, i))
  {
  }

  lemma GloveUpgradeRowsCheck7To13(i: nat)
    requires 7 <= i < 14
    ensures Checked(Row(1, i))
  {
  }

  lemma ClawRowsCheck(i: nat)
    requires i < 7
    ensures Checked(Row(2, i))
  {
  }

  lemma ClawUpgradeRowsCheck0To6(i: nat)
    requires i < 7
    ensures Checked(Row(3, i))
  {
  }

  lemma ClawUpgradeRowsCheck7To12(i: nat)
    requires 7 <= i < 13
    ensures Checked(Row(3, i))
  {
  }

  lemma MaterialRowsCheck(i: nat)
    requires i < 3
    ensures Checked(Row(4, i))
  {
  }

  lemma RowIsSound(t: int, i: nat)
    requires i < Sizes(t)
    ensures Sound(Row(t, i))
  {
    match t {
      case 0 => if i < 6 { GloveRowsCheck0To5(i); } else { GloveRowsCheck6To10(i); }
      case 1 => if i < 7 { GloveUpgradeRowsCheck0To6(i); } else { GloveUpgradeRowsCheck7To13(i); }
      case 2 => ClawRowsCheck(i);
      case 3 => if i < 7 { ClawUpgradeRowsCheck0To6(i); } else { ClawUpgradeRowsCheck7To12(i); }
      case 4 => MaterialRowsCheck(i);
    }
    CheckedIsSound(Row(t, i));
  }

  /** Pieces received for qty crafts: screws come in packs of 15. */
  function Received(item: int, qty: int): int {
    if item == 4003000 then 15 * qty else qty
  }

  // ----- the conversation -----

  datatype Talk = Talk(status: int, selectedType: int, selectedItem: int, recipe: Recipe, qty: int, equip: bool,
                       closed: bool)

  /** Menus are answered with one of their entries; the number prompt with any number. */
  ghost predicate Legal(t: Talk, r: Reply) {
    && !t.closed
    && (r.mode == 1 ==>
          && (t.status == 0 ==> 0 <= r.selection < 5)
          && (t.status == 1 ==> 0 <= r.selection < 3)
          && (t.status == 2 && t.equip ==> 0 <= r.selection < Sizes(t.selectedType)))
  }

  ghost function Replied(t: Talk, r: Reply): Talk
    requires Ready(t) && Legal(t, r)
  {
    if r.mode != 1 then t.(closed := true)
    else
      var u := t.(status := t.status + 1);
      if u.status == 1 then
        u.(selectedType := r.selection, equip := r.selection != MATERIALS,
           status := if r.selection != MATERIALS then 2 else 1)
      else if u.status == 2 then
        u.(selectedItem := r.selection, recipe := Row(MATERIALS, r.selection))
      else if u.status == 3 then
        if t.equip then u.(selectedItem := r.selection, qty := 1, recipe := Row(t.selectedType, r.selection))
        else u.(qty := Quantity(r.selection))
      else u.(closed := true)
  }

  /** What is known at each page; at the last one the recipe is the one that was prompted. */
  ghost predicate Ready(t: Talk) {
    t.closed ||
    match t.status
    case 0 => true
    case 1 => t.selectedType == MATERIALS && !t.equip
    case 2 => 0 <= t.selectedType < 5 && t.equip == (t.selectedType != MATERIALS) && (!t.equip ==> Prompted(t))
    case 3 => Prompted(t) && t.qty >= 1 && t.equip == (t.selectedType != MATERIALS) && (t.equip ==> t.qty == 1)
    case _ => false
  }

  ghost predicate Prompted(t: Talk) {
    && 0 <= t.selectedType < 5 && 0 <= t.selectedItem < Sizes(t.selectedType)
    && t.recipe == Row(t.selectedType, t.selectedItem)
  }

  lemma RepliesKeepReady(t: Talk, r: Reply)
    requires Ready(t) && Legal(t, r)
    ensures Ready(Replied(t, r))
  {
  }

  ghost predicate Buys(t: Talk, r: Reply, p: Purse) {
    !t.closed && t.status == 3 && r.mode == 1 && r.canHold && Affords(p, t.recipe, t.qty)
  }

  /** One reply: the page turns, and the purse changes in the final exchange only. */
  ghost predicate Next(s: State<Talk>, r: Reply, s': State<Talk>)
    requires Ready(s.talk) && Legal(s.talk, r)
  {
    && s'.talk == Replied(s.talk, r)
    && if Buys(s.talk, r, s.purse)
       then Sound(s.talk.recipe)
            && Exchanged(s.purse, s'.purse, s.talk.recipe, s.talk.qty, Received(s.talk.recipe.item, s.talk.qty))
       else s'.purse == s.purse
  }

  class Conversation {
    const customer: Customer
    var status: int
    var selectedType: int
    var selectedItem: int
    var item: int
    var mats: Cell
    var matQty: Cell
    var cost: int
    var qty: int
    var equip: bool
    var closed: bool

    ghost function View(): State<Talk>
      reads this, customer
    {
      State(Talk(status, selectedType, selectedItem, Recipe(item, mats, matQty, cost), qty, equip, closed),
            customer.View())
    }

    /** start() resets the status and shows the first menu through action(1, 0, 0). */
    constructor (customer: Customer)
      ensures this.customer == customer && View().talk.status == START && Ready(View().talk) && !closed
    {
      this.customer := customer;
      status, selectedType, selectedItem, qty, equip, closed := 0, -1, -1, 0, false, false;
      item, mats, matQty, cost := 0, Many([]), Many([]), 0;
    }

    method Action(mode: int, selection: int, canHold: bool)
      requires Ready(View().talk) && Legal(View().talk, Reply(mode, selection, canHold))
      modifies this, customer
      ensures Next(old(View()), Reply(mode, selection, canHold), View())
    {
      if mode == 1 {
        status := status + 1;
      } else {
        closed := true;
      }
      if status == 1 && mode == 1 {
        selectedType := selection;
        if selectedType == 0 || selectedType == 1 || selectedType == 2 || selectedType == 3 {
          equip := true;
        } else if selectedType == 4 {
          equip := false;
        }
        if equip {
          status := status + 1;
        }
      } else if status == 2 && mode == 1 {
        selectedItem := selection;
        if selectedType == 4 {
          Prepare();
        }
      } else if status == 3 && mode == 1 {
        if equip {
          selectedItem := selection;
          qty := 1;
        } else {
          qty := Quantity(selection);
        }
        if 0 <= selectedType <= 3 {
          Prepare();
        }
      } else if status == 4 && mode == 1 {
        Exchange(canHold);
        closed := true;
      }
    }

    /** Fills in the row of the selected type; the script repeats this once per type. */
    method Prepare()
      requires 0 <= selectedItem < Sizes(selectedType)
      modifies `item, `mats, `matQty, `cost
      ensures Recipe(item, mats, matQty, cost) == Row(selectedType, selectedItem)
    {
      TablesAligned(selectedType);
      item := Items(selectedType)[selectedItem];
      mats := MatSet(selectedType)[selectedItem];
      matQty := MatQtySet(selectedType)[selectedItem];
      cost := CostSet(selectedType)[selectedItem];
    }

    method Exchange(canHold: bool)
      requires Prompted(View().talk) && qty >= 1
      modifies customer
      ensures Sound(Recipe(item, mats, matQty, cost))
      ensures if canHold && Affords(old(customer.View()), Recipe(item, mats, matQty, cost), qty)
              then Exchanged(old(customer.View()), customer.View(), Recipe(item, mats, matQty, cost), qty,
                             Received(item, qty))
              else customer.View() == old(customer.View())
    {
      var r := Recipe(item, mats, matQty, cost);
      RowIsSound(selectedType, selectedItem);
      var recvQty;
      if item == 4003000 {
        recvQty := 15 * qty;
      } else {
        recvQty := qty;
      }
      if !canHold {
        return;
      } else if customer.mesos < cost * qty {
        return;
      }
      var complete := customer.HasMaterials(r, qty);
      if complete {
        customer.Trade(r, qty, recvQty);
      }
    }
  }

  // ----- whole conversations -----

  ghost predicate IsConversation(states: seq<State<Talk>>, replies: seq<Reply>) {
    && |states| == |replies| + 1
    && states[0].talk.status == START && !states[0].talk.closed && Ready(states[0].talk)
    && forall i :: 0 <= i < |replies| && Ready(states[i].talk) ==>
         Legal(states[i].talk, replies[i]) && Next(states[i], replies[i], states[i + 1])
  }

  /** What the open page knows of the replies that led to it. */
  ghost predicate Remembers(t: Talk, replies: seq<Reply>) {
    t.closed ||
    ((forall i :: 0 <= i < |replies| ==> replies[i].mode == 1) &&
     match |replies|
     case 0 => t.status == START
     case 1 => t.selectedType == replies[0].selection && t.status == (if t.selectedType == 4 then 1 else 2)
     case 2 => Chosen(t, replies) && t.status == (if t.selectedType == 4 then 2 else 3) && (t.equip ==> t.qty == 1)
     case 3 => Chosen(t, replies) && t.selectedType == 4 && t.status == 3 && t.qty == Quantity(replies[2].selection)
     case _ => false)
  }

  ghost predicate Chosen(t: Talk, replies: seq<Reply>)
    requires |replies| >= 2
  {
    && t.selectedType == replies[0].selection && t.selectedItem == replies[1].selection
    && 0 <= t.selectedItem < Sizes(t.selectedType) && t.recipe == Row(t.selectedType, t.selectedItem)
  }

  lemma ReplyIsRemembered(t: Talk, replies: seq<Reply>, r: Reply)
    requires Ready(t) && Legal(t, r) && Remembers(t, replies)
    ensures Remembers(Replied(t, r), replies + [r])
  {
  }

  /** The pieces that an order brings: screws by the 15. */
  function Pieces(o: Order): int {
    if o.kind == 4 && o.entry == 2 then 15 * o.qty else o.qty
  }

  lemma ReceivedIsPieces(o: Order)
    requires 0 <= o.entry < Sizes(o.kind)
    ensures Received(Row(o.kind, o.entry).item, o.qty) == Pieces(o)
  {
    ScrewsAreTheThird(o.kind, o.entry);
  }

  lemma ScrewsAreTheThird(t: int, i: nat)
    requires i < Sizes(t)
    ensures |Items(t)| == Sizes(t) && (Items(t)[i] == 4003000 <==> t == 4 && i == 2)
  {
  }

  lemma {:induction false} EveryPageRemembers(states: seq<State<Talk>>, replies: seq<Reply>, k: nat)
    requires IsConversation(states, replies) && k <= |replies|
    requires forall i :: 0 <= i <= |replies| ==> Ready(states[i].talk)
    ensures Remembers(states[k].talk, replies[..k])
  {
    if k > 0 {
      EveryPageRemembers(states, replies, k - 1);
      ReplyIsRemembered(states[k - 1].talk, replies[..k - 1], replies[k - 1]);
      assert replies[..k] == replies[..k - 1] + [replies[k - 1]];
    }
  }

  /** The replies are an order exactly if the last one is a yes to the last page, and the page
      is about that order. */
  lemma OrderIsPrompted(t: Talk, replies: seq<Reply>, r: Reply)
    requires Ready(t) && Legal(t, r) && Remembers(t, replies)
    ensures var o := Ordered(replies + [r]);
            && (o.Some? <==> t.status == 3 && r.mode == 1)
            && (o.Some? ==>
                  && 0 <= o.value.kind < 5 && 0 <= o.value.entry < Sizes(o.value.kind)
                  && t.recipe == Row(o.value.kind, o.value.entry) && t.qty == o.value.qty)
  {
    var all := replies + [r];
    assert all[..|replies|] == replies && all[|replies|] == r;
    assert forall i :: 0 <= i < |replies| ==> all[i] == replies[i];
  }

  lemma LastReplyFillsTheOrder(s: State<Talk>, replies: seq<Reply>, r: Reply, s': State<Talk>)
    requires Ready(s.talk) && Legal(s.talk, r) && Next(s, r, s') && Remembers(s.talk, replies)
    ensures Filled(s.purse, replies + [r], s')
  {
    OrderIsPrompted(s.talk, replies, r);
    if Ordered(replies + [r]).Some? {
      var o := Ordered(replies + [r]).value;
      ReceivedIsPieces(o);
      RowIsSound(o.kind, o.entry);
    }
  }

  /** The purse a before a conversation and the state z after it, in terms of the replies. */
  ghost predicate Filled(a: Purse, replies: seq<Reply>, z: State<Talk>) {
    match Ordered(replies)
    case None => z.purse == a
    case Some(o) =>
      && 0 <= o.entry < Sizes(o.kind) && Sound(Row(o.kind, o.entry))
      && if replies[|replies| - 1].canHold && Affords(a, Row(o.kind, o.entry), o.qty)
         then z.talk.closed && Exchanged(a, z.purse, Row(o.kind, o.entry), o.qty, Pieces(o))
         else z.purse == a
  }

  /** And the order is for one of the types on offer. */
  ghost predicate Honoured(a: Purse, replies: seq<Reply>, z: State<Talk>) {
    Filled(a, replies, z) && (Ordered(replies).Some? ==> 0 <= Ordered(replies).value.kind < 5)
  }

  /** Whatever the customer replies, a conversation of any length changes the purse only by the
      one exchange that its replies order, all or nothing; equipment is made one piece
      at a time. */
  lemma {:induction false} ConversationIsAtomic(states: seq<State<Talk>>, replies: seq<Reply>)
    requires IsConversation(states, replies)
    ensures Honoured(states[0].purse, replies, states[|replies|])
  {
    forall i | 0 <= i < |replies| && Ready(states[i].talk) ensures Ready(states[i + 1].talk) {
      RepliesKeepReady(states[i].talk, replies[i]);
    }
    HoldsThroughout((s: State<Talk>) => Ready(s.talk), states, |replies|);
    if replies != [] {
      var n := |replies| - 1;
      forall i | 0 <= i < n ensures states[i].purse == states[i + 1].purse {
        assert Legal(states[i + 1].talk, replies[i + 1]);
      }
      HoldsThroughout((s: State<Talk>) => s.purse == states[0].purse, states, n);
      EveryPageRemembers(states, replies, n);
      LastReplyFillsTheOrder(states[n], replies[..n], replies[n], states[n + 1]);
      OrderIsPrompted(states[n].talk, replies[..n], replies[n]);
      assert replies == replies[..n] + [replies[n]];
    }
  }
}
