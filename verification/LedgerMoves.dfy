/** When a transaction on a character succeeds, and what it moves (internal/store/economy.go, vending.go, progression.go). */
module LedgerMoves {
  import opened Common
  import opened EventState
  import opened Ledger
  import opened LedgerTheorems

  // ---------- What is moved ----------

  /** A winning can is given if there was one to win, and room for it. */
  predicate WinsCan(c: Character, items: Items, winning: bool) {
    winning && WINNING_CAN in items && Quantity(c.inventory, WINNING_CAN) < items[WINNING_CAN].maxStack
  }

  predicate FirstTime(c: Character, request: string) {
    request !in c.purchases
  }

  function YenMoved(c: Character, t: Transaction): (amount: int) {
    match t
    case Credit(amount, _) => amount
    case Spend(amount, _) => -amount
    case Vend(request, _, _, price, _) => if FirstTime(c, request) then -price else 0
    case _ => 0
  }

  function ItemsMoved(c: Character, items: Items, t: Transaction, item: string): (quantity: int) {
    match t
    case Grant(granted, quantity, _) => if granted == item then quantity else 0
    case Consume(consumed, quantity) => if consumed == item then -quantity else 0
    case Vend(request, _, _, _, winning) =>
      if FirstTime(c, request) && WinsCan(c, items, winning) && item == WINNING_CAN then 1 else 0
    case UseItem(used) => if used == item then -1 else 0
    case _ => 0
  }

  function ExperienceMoved(t: Transaction): (amount: int) {
    match t case Award(amount, _) => amount case _ => 0
  }

  function HpAfter(c: Character, items: Items, t: Transaction): (hp: int) {
    match t
    case Damage(amount, _) => if c.currentHp - amount < 0 then 0 else c.currentHp - amount
    case Heal(amount, _) => if c.currentHp + amount > c.maxHp then c.maxHp else c.currentHp + amount
    case UseItem(item) =>
      if item !in items || items[item].heals.None? then c.currentHp
      else if c.currentHp + items[item].heals.value > c.maxHp then c.maxHp
      else if c.currentHp + items[item].heals.value < 0 then 0
      else c.currentHp + items[item].heals.value
    case _ => c.currentHp
  }

  /** Balances, stacks, experience and hit points are moved as asked; nothing else is. */
  ghost predicate MovedAsAsked(c: Character, items: Items, t: Transaction, d: Character) {
    && d.yen == c.yen + YenMoved(c, t)
    && (forall item :: Quantity(d.inventory, item) == Quantity(c.inventory, item) + ItemsMoved(c, items, t, item))
    && d.experience == c.experience + ExperienceMoved(t)
    && d.currentHp == HpAfter(c, items, t) && d.maxHp == c.maxHp
    && d.account == c.account && d.world == c.world && d.story == c.story && d.revision == c.revision && d.applied == c.applied
    && (t.SoftDelete? ==> d.deleted) && (!t.SoftDelete? ==> d.deleted == c.deleted)
  }

  lemma YenMoves(c: Character, items: Items, t: Transaction)
    requires t.Credit? || t.Spend?
    requires InRange(c, items) && Perform(c, items, t).Ok?
    ensures MovedAsAsked(c, items, t, Perform(c, items, t).value)
  {
  }

  lemma StacksMove(c: Character, items: Items, t: Transaction)
    requires t.Grant? || t.Consume?
    requires InRange(c, items) && Perform(c, items, t).Ok?
    ensures MovedAsAsked(c, items, t, Perform(c, items, t).value)
  {
  }

  lemma VendingMoves(c: Character, items: Items, t: Transaction)
    requires t.Vend? && InRange(c, items) && ValidItems(items) && Perform(c, items, t).Ok?
    ensures MovedAsAsked(c, items, t, Perform(c, items, t).value)
  {
  }

  lemma ProgressionMoves(c: Character, items: Items, t: Transaction)
    requires t.Award? || t.Damage? || t.Heal? || t.UseItem? || t.SoftDelete?
    requires InRange(c, items) && Perform(c, items, t).Ok?
    ensures MovedAsAsked(c, items, t, Perform(c, items, t).value)
  {
  }

  /** Every transaction that succeeds moves just what it was asked to. */
  lemma TransactionsMoveAsAsked(c: Character, items: Items, t: Transaction)
    requires !t.CommitRun? && ValidItems(items) && InRange(c, items) && Perform(c, items, t).Ok?
    ensures MovedAsAsked(c, items, t, Perform(c, items, t).value)
  {
    if t.Vend? {
      VendingMoves(c, items, t);
    } else if t.Credit? || t.Spend? {
      YenMoves(c, items, t);
    } else if t.Grant? || t.Consume? {
      StacksMove(c, items, t);
    } else {
      ProgressionMoves(c, items, t);
    }
  }

  /** The first sale of a request leaves a receipt of what was sold, and every later one answers with it. */
  lemma SalesLeaveReceipts(c: Character, items: Items, request: string, machine: string, drink: string, price: int, winning: bool)
    requires ValidItems(items) && Perform(c, items, Vend(request, machine, drink, price, winning)).Ok?
    ensures
      var d := Perform(c, items, Vend(request, machine, drink, price, winning)).value;
      && request in d.purchases
      && d.purchases[request].machine == machine && d.purchases[request].drink == drink
      && (FirstTime(c, request) ==>
            && d.purchases == c.purchases[request := d.purchases[request]]
            && d.purchases[request].price == price && d.purchases[request].winningCan == WinsCan(c, items, winning))
      && (!FirstTime(c, request) ==> d == c)
  {
  }

  // ---------- When ----------

  predicate Unused(events: seq<EconomyEvent>, key: Option<EventKey>) {
    key.Some? ==> forall i :: 0 <= i < |events| ==> events[i].key != key
  }

  predicate NewProgress(events: seq<ProgressionEvent>, key: Option<EventKey>) {
    key.Some? ==> forall i :: 0 <= i < |events| ==> events[i].key != key
  }

  /** A transaction's conditions: a positive amount, a character that is there, enough or room enough, and a new key. */
  predicate Possible(c: Character, items: Items, t: Transaction) {
    match t
    case Credit(amount, key) => amount > 0 && !c.deleted && c.yen + amount <= MAX_INT64 && Unused(c.economy, key)
    case Spend(amount, key) => amount > 0 && !c.deleted && c.yen >= amount && Unused(c.economy, key)
    case Grant(item, quantity, key) =>
      && quantity > 0 && item in items && Quantity(c.inventory, item) + quantity <= items[item].maxStack && Unused(c.economy, key)
    case Consume(item, quantity) => quantity > 0 && item in items && Quantity(c.inventory, item) >= quantity
    case Vend(request, machine, drink, price, winning) =>
      && request != "" && machine != "" && drink != "" && price > 0 && !c.deleted
      && (if FirstTime(c, request)
          then c.yen >= price && (winning ==> WINNING_CAN in items) && Unused(c.economy, Some(VendingKey(request)))
          else c.purchases[request].machine == machine && c.purchases[request].drink == drink)
    case Award(amount, key) => amount > 0 && !c.deleted && c.experience + amount <= MAX_INT64 && NewProgress(c.progression, key)
    case Damage(amount, key) => amount > 0 && !c.deleted && NewProgress(c.progression, key)
    case Heal(amount, key) => amount > 0 && !c.deleted && NewProgress(c.progression, key)
    case UseItem(item) =>
      item in items && items[item].heals.Some? && Quantity(c.inventory, item) >= 1 && !c.deleted && c.currentHp < c.maxHp
    case SoftDelete => true
    case CommitRun(_, _) => false
  }

  lemma EconomySucceedsIffPossible(c: Character, items: Items, t: Transaction)
    requires t.Credit? || t.Spend? || t.Grant? || t.Consume?
    requires InRange(c, items)
    ensures Perform(c, items, t).Ok? <==> Possible(c, items, t)
  {
  }

  lemma VendingSucceedsIffPossible(c: Character, items: Items, t: Transaction)
    requires t.Vend? && InRange(c, items)
    ensures Perform(c, items, t).Ok? <==> Possible(c, items, t)
  {
  }

  lemma ProgressionSucceedsIffPossible(c: Character, items: Items, t: Transaction)
    requires t.Award? || t.Damage? || t.Heal? || t.UseItem? || t.SoftDelete?
    requires InRange(c, items)
    ensures Perform(c, items, t).Ok? <==> Possible(c, items, t)
  {
  }

  /** On rows within the schema's ranges, a transaction succeeds if and only if its conditions hold. */
  lemma SucceedsIffPossible(c: Character, items: Items, t: Transaction)
    requires !t.CommitRun? && InRange(c, items)
    ensures Perform(c, items, t).Ok? <==> Possible(c, items, t)
  {
    if t.Vend? {
      VendingSucceedsIffPossible(c, items, t);
    } else if t.Credit? || t.Spend? || t.Grant? || t.Consume? {
      EconomySucceedsIffPossible(c, items, t);
    } else {
      ProgressionSucceedsIffPossible(c, items, t);
    }
  }

  // ---------- There and back ----------

  /** What is credited can be spent, what is granted consumed, and damage healed, and then all is as before. */
  lemma OneUndoesTheOther(c: Character, items: Items, t: Transaction, u: Transaction)
    requires ValidItems(items) && InRange(c, items) && Possible(c, items, t)
    requires
      || (t.Credit? && u == Spend(t.amount, None)) || (t.Grant? && u == Consume(t.item, t.quantity))
      || (t.Damage? && t.amount <= c.currentHp && u == Heal(t.amount, None))
    ensures Perform(c, items, t).Ok? && Perform(Perform(c, items, t).value, items, u).Ok?
    ensures
      var d := Perform(Perform(c, items, t).value, items, u).value;
      && d.yen == c.yen && d.currentHp == c.currentHp && d.experience == c.experience
      && forall item :: Quantity(d.inventory, item) == Quantity(c.inventory, item)
  {
    SucceedsIffPossible(c, items, t);
    TransactionStaysInRange(c, items, t);
    var mid := Perform(c, items, t).value;
    TransactionsMoveAsAsked(c, items, t);
    SucceedsIffPossible(mid, items, u);
    TransactionsMoveAsAsked(mid, items, u);
    forall item ensures Quantity(Perform(mid, items, u).value.inventory, item) == Quantity(c.inventory, item) {
      assert Quantity(mid.inventory, item) == Quantity(c.inventory, item) + ItemsMoved(c, items, t, item);
    }
  }
}
