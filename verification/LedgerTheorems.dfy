/** What every sequence of transactions keeps of a character's ledger. */
module LedgerTheorems {
  import opened Common
  import opened ScriptMessages
  import opened EventState
  import opened Ledger

  function YenTotal(events: seq<EconomyEvent>): (r: int) {
    if events == [] then 0 else YenTotal(events[..|events| - 1]) + events[|events| - 1].yenDelta
  }

  function StackTotal(events: seq<EconomyEvent>, item: string): (r: int) {
    if events == [] then 0
    else
      var last := events[|events| - 1];
      StackTotal(events[..|events| - 1], item) + if last.item == Some(item) then last.quantityDelta else 0
  }

  function HpTotal(events: seq<ProgressionEvent>): (r: int) {
    if events == [] then 0 else HpTotal(events[..|events| - 1]) + events[|events| - 1].hpDelta
  }

  function ExperienceTotal(events: seq<ProgressionEvent>): (r: int) {
    if events == [] then 0 else ExperienceTotal(events[..|events| - 1]) + events[|events| - 1].experienceDelta
  }

  /** The holdings a character had before its first recorded event. */
  ghost predicate SameOrigin(c: Character, d: Character) {
    && c.yen - YenTotal(c.economy) == d.yen - YenTotal(d.economy)
    && (forall item ::
          Quantity(c.inventory, item) - StackTotal(c.economy, item)
          == Quantity(d.inventory, item) - StackTotal(d.economy, item))
    && c.currentHp - HpTotal(c.progression) == d.currentHp - HpTotal(d.progression)
    && c.experience - ExperienceTotal(c.progression) == d.experience - ExperienceTotal(d.progression)
  }

  ghost predicate UniqueKeys(events: seq<EconomyEvent>) {
    forall i, j :: 0 <= i < j < |events| && events[i].key.Some? ==> events[i].key != events[j].key
  }

  ghost predicate UniqueProgressionKeys(events: seq<ProgressionEvent>) {
    forall i, j :: 0 <= i < j < |events| && events[i].key.Some? ==> events[i].key != events[j].key
  }

  /** The sale of `request` was charged at `price`. */
  ghost predicate Charged(events: seq<EconomyEvent>, request: string, price: int) {
    exists i :: 0 <= i < |events| && events[i].key == Some(VendingKey(request)) && events[i].yenDelta == -price
  }

  /** The idempotency indexes, and a charge behind every sale. */
  ghost predicate Indexed(c: Character) {
    && UniqueKeys(c.economy) && UniqueProgressionKeys(c.progression)
    && (forall request :: request in c.purchases ==> Charged(c.economy, request, c.purchases[request].price))
  }

  /** The range constraints of the schema. */
  predicate InRange(c: Character, items: Items) {
    && 0 <= c.yen <= MAX_INT64 && 0 <= c.experience <= MAX_INT64
    && 0 <= c.currentHp <= c.maxHp
    && (forall item :: item in c.inventory ==> item in items && 1 <= c.inventory[item] <= items[item].maxStack)
  }

  /** Nothing recorded is ever taken back; the story changes only together with the revision. */
  ghost predicate Extends(c: Character, d: Character) {
    && c.economy <= d.economy && c.progression <= d.progression && c.applied <= d.applied
    && (forall request :: request in c.purchases ==>
          request in d.purchases && d.purchases[request] == c.purchases[request])
    && (c.deleted ==> d.deleted) && c.account == d.account && c.maxHp == d.maxHp
    && c.revision <= d.revision
    && (d.revision == c.revision ==> d.story == c.story && d.applied == c.applied)
  }

  // ---------- The shape of one transaction ----------

  ghost predicate EconomyStep(c: Character, d: Character, rows: seq<EconomyEvent>) {
    && |rows| <= 1 && d.economy == c.economy + rows
    && (rows != [] ==> !KeyUsed(c.economy, rows[0].key))
  }

  ghost predicate ProgressionStep(c: Character, d: Character, rows: seq<ProgressionEvent>) {
    && |rows| <= 1 && d.progression == c.progression + rows
    && (rows != [] ==> !ProgressionKeyUsed(c.progression, rows[0].key))
  }

  /** The holdings of `d` differ from those of `c` by exactly what the new rows record. */
  ghost predicate Accounted(c: Character, d: Character, rows: seq<EconomyEvent>, steps: seq<ProgressionEvent>) {
    && d.yen == c.yen + YenTotal(rows)
    && (forall item :: Quantity(d.inventory, item) == Quantity(c.inventory, item) + StackTotal(rows, item))
    && d.currentHp == c.currentHp + HpTotal(steps)
    && d.experience == c.experience + ExperienceTotal(steps)
  }

  lemma TotalsOfOne(row: EconomyEvent, step: ProgressionEvent, item: string)
    ensures YenTotal([row]) == row.yenDelta && YenTotal([]) == 0
    ensures StackTotal([row], item) == (if row.item == Some(item) then row.quantityDelta else 0) && StackTotal([], item) == 0
    ensures HpTotal([step]) == step.hpDelta && HpTotal([]) == 0
    ensures ExperienceTotal([step]) == step.experienceDelta && ExperienceTotal([]) == 0
  {
  }

  lemma TotalsAppend(events: seq<EconomyEvent>, rows: seq<EconomyEvent>, item: string)
    requires |rows| <= 1
    ensures YenTotal(events + rows) == YenTotal(events) + YenTotal(rows)
    ensures StackTotal(events + rows, item) == StackTotal(events, item) + StackTotal(rows, item)
  {
    var more := events + rows;
    if rows == [] {
      assert more == events;
    } else {
      assert more[..|more| - 1] == events;
    }
  }

  lemma ProgressionTotalsAppend(events: seq<ProgressionEvent>, steps: seq<ProgressionEvent>)
    requires |steps| <= 1
    ensures HpTotal(events + steps) == HpTotal(events) + HpTotal(steps)
    ensures ExperienceTotal(events + steps) == ExperienceTotal(events) + ExperienceTotal(steps)
  {
    var more := events + steps;
    if steps == [] {
      assert more == events;
    } else {
      assert more[..|more| - 1] == events;
    }
  }

  lemma AccountedKeepsOrigin(c: Character, d: Character, rows: seq<EconomyEvent>, steps: seq<ProgressionEvent>)
    requires EconomyStep(c, d, rows) && ProgressionStep(c, d, steps) && Accounted(c, d, rows, steps)
    ensures SameOrigin(c, d)
  {
    TotalsAppend(c.economy, rows, "");
    ProgressionTotalsAppend(c.progression, steps);
    forall item
      ensures Quantity(c.inventory, item) - StackTotal(c.economy, item)
        == Quantity(d.inventory, item) - StackTotal(d.economy, item)
    {
      TotalsAppend(c.economy, rows, item);
    }
  }

  lemma KeysStayUnique(c: Character, d: Character, rows: seq<EconomyEvent>, steps: seq<ProgressionEvent>)
    requires EconomyStep(c, d, rows) && ProgressionStep(c, d, steps)
    ensures UniqueKeys(c.economy) ==> UniqueKeys(d.economy)
    ensures UniqueProgressionKeys(c.progression) ==> UniqueProgressionKeys(d.progression)
    ensures forall request, price :: Charged(c.economy, request, price) ==> Charged(d.economy, request, price)
    ensures forall request, price :: Charged(rows, request, price) ==> Charged(d.economy, request, price)
  {
    forall request, price | Charged(c.economy, request, price) ensures Charged(d.economy, request, price) {
      var i :| 0 <= i < |c.economy| && c.economy[i].key == Some(VendingKey(request)) && c.economy[i].yenDelta == -price;
      assert d.economy[i] == c.economy[i];
    }
    forall request, price | Charged(rows, request, price) ensures Charged(d.economy, request, price) {
      assert d.economy[|c.economy|] == rows[0];
    }
  }

  /** The rows a successful transaction writes. */
  ghost function Rows(c: Character, items: Items, t: Transaction): (rows: seq<EconomyEvent>) {
    match t
    case Credit(amount, key) => [EconomyEvent(key, YenCredit, None, 0, amount)]
    case Spend(amount, key) => [EconomyEvent(key, YenSpend, None, 0, -amount)]
    case Grant(item, quantity, key) => [EconomyEvent(key, ItemGrant, Some(item), quantity, 0)]
    case Consume(item, quantity) => [EconomyEvent(None, ItemConsume, Some(item), -quantity, 0)]
    case Vend(request, machine, drink, price, winning) =>
      if request in c.purchases then []
      else
        var prize := winning && WINNING_CAN in items
          && (WINNING_CAN !in c.inventory || c.inventory[WINNING_CAN] < items[WINNING_CAN].maxStack);
        [EconomyEvent(Some(VendingKey(request)), VendingSale, if prize then Some(WINNING_CAN) else None, if prize then 1 else 0, -price)]
    case UseItem(item) => [EconomyEvent(None, ItemConsume, Some(item), -1, 0)]
    case _ => []
  }

  ghost function Steps(c: Character, items: Items, t: Transaction): (steps: seq<ProgressionEvent>) {
    match t
    case Award(amount, key) => [ProgressionEvent(key, amount, 0)]
    case Damage(amount, key) => [ProgressionEvent(key, 0, Clamp(c.currentHp - amount, c.maxHp) - c.currentHp)]
    case Heal(amount, key) => [ProgressionEvent(key, 0, Clamp(c.currentHp + amount, c.maxHp) - c.currentHp)]
    case UseItem(item) =>
      if item in items && items[item].heals.Some? then
        [ProgressionEvent(None, 0, Clamp(c.currentHp + items[item].heals.value, c.maxHp) - c.currentHp)]
      else []
    case _ => []
  }

  lemma TransactionWritesItsRows(c: Character, items: Items, t: Transaction)
    requires !t.CommitRun? && Perform(c, items, t).Ok?
    ensures var d := Perform(c, items, t).value;
      EconomyStep(c, d, Rows(c, items, t)) && ProgressionStep(c, d, Steps(c, items, t))
  {
  }

  lemma TransactionAccountsFor(c: Character, items: Items, t: Transaction, item: string)
    requires !t.CommitRun? && Perform(c, items, t).Ok?
    ensures Quantity(Perform(c, items, t).value.inventory, item) == Quantity(c.inventory, item) + StackTotal(Rows(c, items, t), item)
  {
    var rows := Rows(c, items, t);
    if rows != [] {
      TotalsOfOne(rows[0], ProgressionEvent(None, 0, 0), item);
      assert rows == [rows[0]];
    }
  }

  lemma TransactionAccounts(c: Character, items: Items, t: Transaction)
    requires !t.CommitRun? && Perform(c, items, t).Ok?
    ensures Accounted(c, Perform(c, items, t).value, Rows(c, items, t), Steps(c, items, t))
  {
    var rows, steps := Rows(c, items, t), Steps(c, items, t);
    var row := if rows == [] then EconomyEvent(None, YenCredit, None, 0, 0) else rows[0];
    var step := if steps == [] then ProgressionEvent(None, 0, 0) else steps[0];
    TotalsOfOne(row, step, "");
    assert (rows == [] || rows == [row]) && (steps == [] || steps == [step]);
    forall item
      ensures Quantity(Perform(c, items, t).value.inventory, item) == Quantity(c.inventory, item) + StackTotal(rows, item)
    {
      TransactionAccountsFor(c, items, t, item);
    }
  }

  lemma TransactionKeepsIndexes(c: Character, items: Items, t: Transaction)
    requires !t.CommitRun? && Perform(c, items, t).Ok? && Indexed(c)
    ensures Indexed(Perform(c, items, t).value)
  {
    var d := Perform(c, items, t).value;
    var rows, steps := Rows(c, items, t), Steps(c, items, t);
    TransactionWritesItsRows(c, items, t);
    KeysStayUnique(c, d, rows, steps);
    forall request | request in d.purchases ensures Charged(d.economy, request, d.purchases[request].price) {
      if request in c.purchases && d.purchases[request] == c.purchases[request] {
        assert Charged(c.economy, request, c.purchases[request].price);
      } else {
        assert t.Vend? && request == t.request;
        assert rows[0].key == Some(VendingKey(request)) && rows[0].yenDelta == -d.purchases[request].price;
        assert Charged(rows, request, d.purchases[request].price);
      }
    }
  }

  lemma TransactionStaysInRange(c: Character, items: Items, t: Transaction)
    requires ValidItems(items) && !t.CommitRun? && Perform(c, items, t).Ok? && InRange(c, items)
    ensures InRange(Perform(c, items, t).value, items)
  {
  }

  lemma TransactionExtends(c: Character, items: Items, t: Transaction)
    requires !t.CommitRun? && Perform(c, items, t).Ok?
    ensures Extends(c, Perform(c, items, t).value)
  {
    TransactionWritesItsRows(c, items, t);
  }

  // ---------- Committing a run ----------

  /** The ledger rows one script effect writes. */
  ghost function EffectRows(run: int, effect: Effect): (rows: seq<EconomyEvent>) {
    var key := Some(ScriptKey(run, effect.sequence));
    match effect.command
    case GrantYen => [EconomyEvent(key, YenCredit, None, 0, StaticInteger(effect.arguments, 0).GetOr(0))]
    case SpendYen => [EconomyEvent(key, YenSpend, None, 0, -StaticInteger(effect.arguments, 0).GetOr(0))]
    case GiveItem =>
      [EconomyEvent(key, ItemGrant, ItemOf(effect), StaticInteger(effect.arguments, 1).GetOr(0), 0)]
    case RemoveItem =>
      [EconomyEvent(key, ItemConsume, ItemOf(effect), -StaticInteger(effect.arguments, 1).GetOr(0), 0)]
    case _ => []
  }

  ghost function ItemOf(effect: Effect): (item: Option<string>) {
    match StaticArgument(effect.arguments, 0, StringKind)
    case None => None
    case Some(text) => Some(text.raw)
  }

  predicate TouchesStory(command: Command) {
    command in {SetFlag, ClearFlag, SetProgress, IncrementProgress}
  }

  lemma StoryEffectShape(c: Character, items: Items, run: int, effect: Effect)
    requires TouchesStory(effect.command) && ApplyEffect(c, items, run, effect).Ok?
    ensures var d := ApplyEffect(c, items, run, effect).value; d == c.(story := d.story)
    ensures EffectRows(run, effect) == []
  {
  }

  lemma YenEffectShape(c: Character, items: Items, run: int, effect: Effect)
    requires effect.command in {GrantYen, SpendYen} && ApplyEffect(c, items, run, effect).Ok?
    ensures var d, rows := ApplyEffect(c, items, run, effect).value, EffectRows(run, effect);
      && |rows| == 1 && rows[0].item == None && !KeyUsed(c.economy, rows[0].key)
      && d == c.(yen := c.yen + rows[0].yenDelta, economy := c.economy + rows)
      && 0 <= d.yen <= MAX_INT64
  {
  }

  lemma ItemEffectShape(c: Character, items: Items, run: int, effect: Effect)
    requires effect.command in {GiveItem, RemoveItem} && ApplyEffect(c, items, run, effect).Ok?
    ensures var d, rows := ApplyEffect(c, items, run, effect).value, EffectRows(run, effect);
      && |rows| == 1 && rows[0].item.Some? && rows[0].yenDelta == 0 && !KeyUsed(c.economy, rows[0].key)
      && d == c.(inventory := d.inventory, economy := c.economy + rows)
      && (forall item :: Quantity(d.inventory, item)
            == Quantity(c.inventory, item) + (if rows[0].item.value == item then rows[0].quantityDelta else 0))
      && (InRange(c, items) ==> InRange(d, items))
  {
  }

  lemma EffectAccounts(c: Character, items: Items, run: int, effect: Effect)
    requires ApplyEffect(c, items, run, effect).Ok?
    ensures var d, rows := ApplyEffect(c, items, run, effect).value, EffectRows(run, effect);
      EconomyStep(c, d, rows) && ProgressionStep(c, d, []) && Accounted(c, d, rows, [])
  {
    var d, rows := ApplyEffect(c, items, run, effect).value, EffectRows(run, effect);
    if TouchesStory(effect.command) {
      StoryEffectShape(c, items, run, effect);
    } else if effect.command in {GrantYen, SpendYen} {
      YenEffectShape(c, items, run, effect);
      forall item ensures StackTotal(rows, item) == 0 {
        TotalsOfOne(rows[0], ProgressionEvent(None, 0, 0), item);
      }
      TotalsOfOne(rows[0], ProgressionEvent(None, 0, 0), "");
    } else {
      ItemEffectShape(c, items, run, effect);
      forall item ensures StackTotal(rows, item) == if rows[0].item.value == item then rows[0].quantityDelta else 0 {
        TotalsOfOne(rows[0], ProgressionEvent(None, 0, 0), item);
      }
      TotalsOfOne(rows[0], ProgressionEvent(None, 0, 0), "");
    }
  }

  /** Committing an effect leaves the rest of the character's rows alone. */
  ghost predicate OnlyHoldings(c: Character, d: Character) {
    d == c.(story := d.story, yen := d.yen, inventory := d.inventory, economy := d.economy)
  }

  lemma EffectShape(c: Character, items: Items, run: int, effect: Effect)
    requires ApplyEffect(c, items, run, effect).Ok?
    ensures OnlyHoldings(c, ApplyEffect(c, items, run, effect).value)
    ensures InRange(c, items) ==> InRange(ApplyEffect(c, items, run, effect).value, items)
  {
    if TouchesStory(effect.command) {
      StoryEffectShape(c, items, run, effect);
    } else if effect.command in {GrantYen, SpendYen} {
      YenEffectShape(c, items, run, effect);
    } else {
      ItemEffectShape(c, items, run, effect);
    }
  }

  ghost predicate LedgerKept(c: Character, items: Items, d: Character) {
    && SameOrigin(c, d) && c.economy <= d.economy
    && (Indexed(c) ==> Indexed(d))
    && (InRange(c, items) ==> InRange(d, items))
  }

  lemma EffectKeeps(c: Character, items: Items, run: int, effect: Effect)
    requires ApplyEffect(c, items, run, effect).Ok?
    ensures var d := ApplyEffect(c, items, run, effect).value;
      LedgerKept(c, items, d) && OnlyHoldings(c, d)
  {
    var d := ApplyEffect(c, items, run, effect).value;
    EffectShape(c, items, run, effect);
    EffectAccounts(c, items, run, effect);
    AccountedKeepsOrigin(c, d, EffectRows(run, effect), []);
    KeysStayUnique(c, d, EffectRows(run, effect), []);
  }

  lemma LedgerKeptTransitive(c: Character, items: Items, d: Character, e: Character)
    requires LedgerKept(c, items, d) && LedgerKept(d, items, e)
    ensures LedgerKept(c, items, e)
  {
    forall item ensures Quantity(c.inventory, item) - StackTotal(c.economy, item)
      == Quantity(e.inventory, item) - StackTotal(e.economy, item)
    {
      assert Quantity(d.inventory, item) - StackTotal(d.economy, item)
        == Quantity(e.inventory, item) - StackTotal(e.economy, item);
    }
  }

  ghost function Tagged(run: int, effects: seq<Effect>): (rows: seq<AppliedEffect>) {
    seq(|effects|, i requires 0 <= i < |effects| => AppliedEffect(run, effects[i]))
  }

  ghost predicate Ascending(effects: seq<Effect>) {
    && (forall i :: 0 <= i < |effects| ==> effects[i].sequence > 0)
    && (forall i, j :: 0 <= i < j < |effects| ==> effects[i].sequence < effects[j].sequence)
  }

  lemma {:induction false} EffectsKeepLedger(c: Character, items: Items, run: int, effects: seq<Effect>)
    requires ApplyAll(c, items, run, effects).Ok?
    ensures LedgerKept(c, items, ApplyAll(c, items, run, effects).value)
  {
    if effects != [] {
      var front, last := effects[..|effects| - 1], effects[|effects| - 1];
      EffectsKeepLedger(c, items, run, front);
      var mid := ApplyAll(c, items, run, front).value;
      EffectKeeps(mid, items, run, last);
      LedgerKeptTransitive(c, items, mid, ApplyAll(c, items, run, effects).value);
    }
  }

  lemma {:induction false} EffectsAreAscending(c: Character, items: Items, run: int, effects: seq<Effect>)
    requires ApplyAll(c, items, run, effects).Ok?
    ensures Ascending(effects)
  {
    if effects != [] {
      EffectsAreAscending(c, items, run, effects[..|effects| - 1]);
      AscendingByOneMore(effects);
    }
  }

  lemma {:induction false} EffectsAreTagged(c: Character, items: Items, run: int, effects: seq<Effect>)
    requires ApplyAll(c, items, run, effects).Ok?
    ensures var d := ApplyAll(c, items, run, effects).value;
      OnlyHoldings(c, d.(applied := c.applied)) && d.applied == c.applied + Tagged(run, effects)
  {
    if effects == [] {
      assert Tagged(run, effects) == [];
    } else {
      var front, last := effects[..|effects| - 1], effects[|effects| - 1];
      EffectsAreTagged(c, items, run, front);
      EffectKeeps(ApplyAll(c, items, run, front).value, items, run, last);
      assert Tagged(run, effects) == Tagged(run, front) + [AppliedEffect(run, last)];
    }
  }

  lemma EffectsKeep(c: Character, items: Items, run: int, effects: seq<Effect>)
    requires ApplyAll(c, items, run, effects).Ok?
    ensures var d := ApplyAll(c, items, run, effects).value;
      && LedgerKept(c, items, d)
      && OnlyHoldings(c, d.(applied := c.applied))
      && d.applied == c.applied + Tagged(run, effects) && Ascending(effects)
  {
    EffectsKeepLedger(c, items, run, effects);
    EffectsAreTagged(c, items, run, effects);
    EffectsAreAscending(c, items, run, effects);
  }

  lemma AscendingByOneMore(effects: seq<Effect>)
    requires effects != [] && Ascending(effects[..|effects| - 1])
    requires effects[|effects| - 1].sequence > LastSequence(effects[..|effects| - 1])
    ensures Ascending(effects)
  {
    var front := effects[..|effects| - 1];
    if front != [] {
      assert forall i :: 0 <= i < |front| ==> effects[i] == front[i] && front[i].sequence <= LastSequence(front);
      assert LastSequence(front) > 0;
    }
  }

  // ---------- Every history ----------

  lemma TransactionKeepsOrigin(c: Character, items: Items, t: Transaction)
    requires !t.CommitRun? && Perform(c, items, t).Ok?
    ensures SameOrigin(c, Perform(c, items, t).value)
  {
    TransactionWritesItsRows(c, items, t);
    TransactionAccounts(c, items, t);
    AccountedKeepsOrigin(c, Perform(c, items, t).value, Rows(c, items, t), Steps(c, items, t));
  }

  lemma AfterKeeps(c: Character, items: Items, t: Transaction)
    requires ValidItems(items)
    ensures var d := After(c, items, t);
      SameOrigin(c, d) && Extends(c, d) && (Indexed(c) ==> Indexed(d)) && (InRange(c, items) ==> InRange(d, items))
  {
    if Perform(c, items, t).Ok? {
      if t.CommitRun? {
        EffectsKeep(c, items, t.run, t.effects);
      } else {
        TransactionKeepsOrigin(c, items, t);
        TransactionExtends(c, items, t);
        if Indexed(c) { TransactionKeepsIndexes(c, items, t); }
        if InRange(c, items) { TransactionStaysInRange(c, items, t); }
      }
    }
  }

  /**
   * Over any history of transactions, yen, every stack, hit points and experience moved by
   * exactly what the ledger recorded, stay in range, and no idempotency key repeats.
   */
  lemma {:induction false} LedgerConservation(c: Character, items: Items, ts: seq<Transaction>)
    requires ValidItems(items)
    ensures var d := AfterAll(c, items, ts);
      SameOrigin(c, d) && Extends(c, d) && (Indexed(c) ==> Indexed(d)) && (InRange(c, items) ==> InRange(d, items))
  {
    if ts != [] {
      LedgerConservation(c, items, ts[..|ts| - 1]);
      AfterKeeps(AfterAll(c, items, ts[..|ts| - 1]), items, ts[|ts| - 1]);
    }
  }

  /** For a character created with an empty ledger the balances are the ledger. */
  lemma BalancesAreTheLedger(c: Character, items: Items, ts: seq<Transaction>)
    requires ValidItems(items) && InRange(c, items)
    requires c.economy == [] && c.progression == [] && c.purchases == map[] && c.inventory == map[]
    ensures var d := AfterAll(c, items, ts);
      && d.yen == c.yen + YenTotal(d.economy) && d.yen >= 0
      && (forall item :: item in d.inventory ==> d.inventory[item] == StackTotal(d.economy, item))
      && (forall item :: item in d.inventory ==> item in items && 1 <= d.inventory[item] <= items[item].maxStack)
      && (forall item :: item !in d.inventory ==> StackTotal(d.economy, item) == 0)
      && d.currentHp == c.currentHp + HpTotal(d.progression) && 0 <= d.currentHp <= d.maxHp == c.maxHp
      && d.experience == c.experience + ExperienceTotal(d.progression)
      && UniqueKeys(d.economy) && UniqueProgressionKeys(d.progression)
  {
    LedgerConservation(c, items, ts);
    var d := AfterAll(c, items, ts);
    forall item ensures Quantity(d.inventory, item) == StackTotal(d.economy, item) {
      assert Quantity(c.inventory, item) - StackTotal(c.economy, item) == Quantity(d.inventory, item) - StackTotal(d.economy, item);
    }
  }

  /** Once a request was sold, repeating it in any later state costs nothing and answers with the same sale. */
  lemma ReplayedSaleIsFree(c: Character, items: Items, ts: seq<Transaction>, request: string,
                           machine: string, drink: string, price: int, winning: bool)
    requires ValidItems(items) && Indexed(c) && request in c.purchases
    ensures var d := AfterAll(c, items, ts); var again := Vend(request, machine, drink, price, winning);
      && After(d, items, again) == d
      && request in d.purchases && d.purchases[request] == c.purchases[request]
      && Charged(d.economy, request, c.purchases[request].price)
      && (forall i, j :: 0 <= i < j < |d.economy| && d.economy[i].key == Some(VendingKey(request))
            ==> d.economy[j].key != Some(VendingKey(request)))
  {
    LedgerConservation(c, items, ts);
  }
}
