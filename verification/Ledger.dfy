/**
 * One character's rows in the database and every transaction that changes them
 * (internal/store/economy.go, vending.go, progression.go and the effect half of script_events.go).
 */
module Ledger {
  import opened Common
  import opened ScriptMessages
  import opened EventState

  datatype StoreError =
    | NotFound | InsufficientFunds | DuplicateEvent | InvalidRequest | MissingDefinition | OutOfRange
    | HpAlreadyFull | BadArgument | EffectsOutOfOrder
    | TriggerMissing | TriggerAmbiguous | ScriptEventActive | ScriptEventEnded | RevisionConflict

  datatype EventKey = ScriptKey(run: int, sequence: int) | VendingKey(request: string) | CallerKey(text: string)

  datatype EconomyKind = YenCredit | YenSpend | ItemGrant | ItemConsume | VendingSale

  datatype EconomyEvent = EconomyEvent(
    key: Option<EventKey>, kind: EconomyKind, item: Option<string>, quantityDelta: int, yenDelta: int)

  datatype ProgressionEvent = ProgressionEvent(key: Option<EventKey>, experienceDelta: int, hpDelta: int)

  datatype Purchase = Purchase(machine: string, drink: string, price: int, winningCan: bool)

  datatype AppliedEffect = AppliedEffect(run: int, effect: Effect)

  /** `heals` is the effect value of a usable item that restores hit points. */
  datatype ItemDefinition = ItemDefinition(maxStack: int, heals: Option<int>)

  type Items = map<string, ItemDefinition>

  predicate ValidItems(items: Items) {
    forall key :: key in items ==> 0 < items[key].maxStack <= MAX_INT32
  }

  const WINNING_CAN := "winning_can"

  datatype Character = Character(
    account: int, world: string, deleted: bool,
    yen: int, experience: int, currentHp: int, maxHp: int,
    revision: int, story: Story, inventory: map<string, int>,
    economy: seq<EconomyEvent>, progression: seq<ProgressionEvent>,
    purchases: map<string, Purchase>, applied: seq<AppliedEffect>)

  type Outcome = Result<Character, StoreError>

  // ---------- Rows ----------

  predicate KeyUsed(events: seq<EconomyEvent>, key: Option<EventKey>) {
    key.Some? && exists i :: 0 <= i < |events| && events[i].key == key
  }

  predicate ProgressionKeyUsed(events: seq<ProgressionEvent>, key: Option<EventKey>) {
    key.Some? && exists i :: 0 <= i < |events| && events[i].key == key
  }

  function RecordEconomy(c: Character, items: Items, event: EconomyEvent): (r: Outcome) {
    if event.item.Some? && event.item.value !in items then Err(MissingDefinition)
    else if KeyUsed(c.economy, event.key) then Err(DuplicateEvent)
    else Ok(c.(economy := c.economy + [event]))
  }

  function AddStack(c: Character, items: Items, item: string, quantity: int): (r: Outcome) {
    if item !in items || quantity > items[item].maxStack then Err(InsufficientFunds)
    else if Quantity(c.inventory, item) + quantity > items[item].maxStack then Err(InsufficientFunds)
    else Ok(c.(inventory := c.inventory[item := Quantity(c.inventory, item) + quantity]))
  }

  function RemoveStack(c: Character, item: string, quantity: int): (r: Outcome) {
    if item !in c.inventory || c.inventory[item] < quantity then Err(InsufficientFunds)
    else if c.inventory[item] == quantity then Ok(c.(inventory := Without(c.inventory, item)))
    else Ok(c.(inventory := c.inventory[item := c.inventory[item] - quantity]))
  }

  function Then(r: Outcome, items: Items, event: EconomyEvent): (s: Outcome) {
    match r case Err(e) => Err(e) case Ok(c) => RecordEconomy(c, items, event)
  }

  // ---------- Economy ----------

  function CreditBalance(c: Character, items: Items, amount: int, key: Option<EventKey>): (r: Outcome) {
    if amount <= 0 then Err(InvalidRequest)
    else
      match RecordEconomy(c, items, EconomyEvent(key, YenCredit, None, 0, amount))
      case Err(e) => Err(e)
      case Ok(recorded) =>
        if c.deleted then Err(NotFound)
        else if c.yen + amount > MAX_INT64 then Err(OutOfRange)
        else Ok(recorded.(yen := c.yen + amount))
  }

  function DebitYen(c: Character, items: Items, amount: int, key: Option<EventKey>): (r: Outcome) {
    if amount <= 0 then Err(InvalidRequest)
    else if c.deleted || c.yen < amount then Err(InsufficientFunds)
    else RecordEconomy(c.(yen := c.yen - amount), items, EconomyEvent(key, YenSpend, None, 0, -amount))
  }

  function GrantStack(c: Character, items: Items, item: string, quantity: int, key: Option<EventKey>): (r: Outcome) {
    if quantity <= 0 then Err(InvalidRequest)
    else
      match RecordEconomy(c, items, EconomyEvent(key, ItemGrant, Some(item), quantity, 0))
      case Err(e) => Err(e)
      case Ok(recorded) => AddStack(recorded, items, item, quantity)
  }

  function ConsumeStack(c: Character, items: Items, item: string, quantity: int): (r: Outcome) {
    if quantity <= 0 then Err(InvalidRequest)
    else Then(RemoveStack(c, item, quantity), items, EconomyEvent(None, ItemConsume, Some(item), -quantity, 0))
  }

  // ---------- Vending ----------

  /** A full stack forfeits the prize; the drink is still sold. */
  function PurchaseDrink(c: Character, items: Items, request: string, machine: string, drink: string, price: int, winning: bool)
    : (r: Outcome)
  {
    if request == "" || machine == "" || drink == "" || price <= 0 then Err(InvalidRequest)
    else if request in c.purchases then
      if c.purchases[request].machine != machine || c.purchases[request].drink != drink then Err(DuplicateEvent)
      else if c.deleted then Err(NotFound)
      else Ok(c)
    else if c.deleted || c.yen < price then Err(InsufficientFunds)
    else if winning && WINNING_CAN !in items then Err(MissingDefinition)
    else
      var prize := winning && (WINNING_CAN !in c.inventory || c.inventory[WINNING_CAN] < items[WINNING_CAN].maxStack);
      var paid := c.(
        yen := c.yen - price,
        inventory := if prize then c.inventory[WINNING_CAN := Quantity(c.inventory, WINNING_CAN) + 1] else c.inventory,
        purchases := c.purchases[request := Purchase(machine, drink, price, prize)]);
      RecordEconomy(paid, items, EconomyEvent(Some(VendingKey(request)), VendingSale,
        if prize then Some(WINNING_CAN) else None, if prize then 1 else 0, -price))
  }

  // ---------- Progression ----------

  function AwardExperience(c: Character, amount: int, key: Option<EventKey>): (r: Outcome) {
    if amount <= 0 then Err(InvalidRequest)
    else if ProgressionKeyUsed(c.progression, key) then Err(DuplicateEvent)
    else if c.deleted then Err(NotFound)
    else if c.experience + amount > MAX_INT64 then Err(OutOfRange)
    else Ok(c.(experience := c.experience + amount, progression := c.progression + [ProgressionEvent(key, amount, 0)]))
  }

  function Clamp(value: int, maximum: int): (r: int) {
    var atLeastZero := if value < 0 then 0 else value;
    if atLeastZero > maximum then maximum else atLeastZero
  }

  function ChangeHp(c: Character, delta: int, key: Option<EventKey>): (r: Outcome) {
    if c.deleted then Err(NotFound)
    else if ProgressionKeyUsed(c.progression, key) then Err(DuplicateEvent)
    else
      var hp := Clamp(c.currentHp + delta, c.maxHp);
      Ok(c.(currentHp := hp, progression := c.progression + [ProgressionEvent(key, 0, hp - c.currentHp)]))
  }

  function UseHealingItem(c: Character, items: Items, item: string): (r: Outcome) {
    if item !in c.inventory || item !in items || items[item].heals.None? then Err(InsufficientFunds)
    else if c.deleted then Err(NotFound)
    else if c.currentHp >= c.maxHp then Err(HpAlreadyFull)
    else
      match Then(RemoveStack(c, item, 1), items, EconomyEvent(None, ItemConsume, Some(item), -1, 0))
      case Err(e) => Err(e)
      case Ok(consumed) => ChangeHp(consumed, items[item].heals.value, None)
  }

  // ---------- Script effects ----------

  function StaticArgument(arguments: seq<Argument>, index: nat, kind: ValueKind): (r: Option<Text>) {
    if index >= |arguments| || !arguments[index].isStatic || arguments[index].value.None? || arguments[index].kind != kind
    then None
    else arguments[index].value
  }

  predicate Alphanumeric(c: char) {
    'a' <= c <= 'z' || 'A' <= c <= 'Z' || '0' <= c <= '9'
  }

  /** The check constraint on story keys. */
  predicate StoryKey(key: string) {
    && 1 <= |key| <= 160 && Alphanumeric(key[0])
    && forall i :: 0 <= i < |key| ==> Alphanumeric(key[i]) || key[i] in "_.:/-"
  }

  function StaticInteger(arguments: seq<Argument>, index: nat): (r: Option<int>) {
    match StaticArgument(arguments, index, NumberKind)
    case None => None
    case Some(text) => match text.number case None => None case Some(value) => WholeNumber(value)
  }

  function ApplyFlag(c: Character, arguments: seq<Argument>, clear: bool): (r: Outcome) {
    var flag := StaticArgument(arguments, 0, StringKind);
    if |arguments| != 1 || flag.None? then Err(BadArgument)
    else if clear then Ok(c.(story := c.story.(flags := Without(c.story.flags, flag.value.raw))))
    else if !StoryKey(flag.value.raw) then Err(BadArgument)
    else Ok(c.(story := c.story.(flags := c.story.flags[flag.value.raw := true])))
  }

  function ApplyProgress(c: Character, arguments: seq<Argument>, increment: bool): (r: Outcome) {
    var name, text := StaticArgument(arguments, 0, StringKind), StaticArgument(arguments, 1, NumberKind);
    if |arguments| != 2 || name.None? || text.None? || text.value.number.None? then Err(BadArgument)
    else
      var key, value := name.value.raw, text.value.number.value;
      if (increment && value <= 0.0) || !StoryKey(key) then Err(BadArgument)
      else
        var next := if increment && key in c.story.progress then c.story.progress[key] + value else value;
        Ok(c.(story := c.story.(progress := c.story.progress[key := next])))
  }

  function ApplyYen(c: Character, items: Items, arguments: seq<Argument>, spend: bool, event: EventKey): (r: Outcome) {
    var amount, reason := StaticInteger(arguments, 0), StaticArgument(arguments, 1, StringKind);
    if |arguments| != 2 || amount.None? || amount.value <= 0 || reason.None? || Blank(reason.value.raw) then Err(BadArgument)
    else
      var delta := if spend then -amount.value else amount.value;
      if c.yen + delta > MAX_INT64 then Err(OutOfRange)
      else if c.deleted || c.yen + delta < 0 then Err(InsufficientFunds)
      else RecordEconomy(c.(yen := c.yen + delta), items,
        EconomyEvent(Some(event), if spend then YenSpend else YenCredit, None, 0, delta))
  }

  function ApplyItem(c: Character, items: Items, arguments: seq<Argument>, remove: bool, event: EventKey): (r: Outcome) {
    var item, quantity := StaticArgument(arguments, 0, StringKind), StaticInteger(arguments, 1);
    if |arguments| != 2 || item.None? || quantity.None? || quantity.value <= 0 || quantity.value > MAX_INT32
    then Err(BadArgument)
    else if remove then
      Then(RemoveStack(c, item.value.raw, quantity.value), items,
        EconomyEvent(Some(event), ItemConsume, Some(item.value.raw), -quantity.value, 0))
    else
      Then(AddStack(c, items, item.value.raw, quantity.value), items,
        EconomyEvent(Some(event), ItemGrant, Some(item.value.raw), quantity.value, 0))
  }

  /** Writes one committed effect to the character's rows. */
  function ApplyEffect(c: Character, items: Items, run: int, effect: Effect): (r: Outcome) {
    var key := ScriptKey(run, effect.sequence);
    match effect.command
    case SetFlag => ApplyFlag(c, effect.arguments, false)
    case ClearFlag => ApplyFlag(c, effect.arguments, true)
    case SetProgress => ApplyProgress(c, effect.arguments, false)
    case IncrementProgress => ApplyProgress(c, effect.arguments, true)
    case GrantYen => ApplyYen(c, items, effect.arguments, false, key)
    case SpendYen => ApplyYen(c, items, effect.arguments, true, key)
    case GiveItem => ApplyItem(c, items, effect.arguments, false, key)
    case RemoveItem => ApplyItem(c, items, effect.arguments, true, key)
    case _ => Err(BadArgument)
  }

  function ApplyNext(c: Character, items: Items, run: int, effect: Effect): (r: Outcome) {
    match ApplyEffect(c, items, run, effect)
    case Err(e) => Err(e)
    case Ok(next) => Ok(next.(applied := next.applied + [AppliedEffect(run, effect)]))
  }

  function LastSequence(effects: seq<Effect>): (r: int) {
    if effects == [] then 0 else effects[|effects| - 1].sequence
  }

  function ApplyAll(c: Character, items: Items, run: int, effects: seq<Effect>): (r: Outcome) {
    if effects == [] then Ok(c)
    else
      var front, last := effects[..|effects| - 1], effects[|effects| - 1];
      match ApplyAll(c, items, run, front)
      case Err(e) => Err(e)
      case Ok(next) =>
        if last.sequence <= LastSequence(front) then Err(EffectsOutOfOrder)
        else ApplyNext(next, items, run, last)
  }

  /** The character's part of finishing a run: all effects and the revision, or nothing. */
  function CommitEffects(c: Character, items: Items, run: int, effects: seq<Effect>): (r: Outcome) {
    match ApplyAll(c, items, run, effects)
    case Err(e) => Err(e)
    case Ok(next) => Ok(next.(revision := if effects == [] then c.revision else c.revision + 1))
  }

  // ---------- Transactions as data ----------

  datatype Transaction =
    | Credit(amount: int, key: Option<EventKey>)
    | Spend(amount: int, key: Option<EventKey>)
    | Grant(item: string, quantity: int, key: Option<EventKey>)
    | Consume(item: string, quantity: int)
    | Vend(request: string, machine: string, drink: string, price: int, winning: bool)
    | Award(amount: int, key: Option<EventKey>)
    | Damage(amount: int, key: Option<EventKey>)
    | Heal(amount: int, key: Option<EventKey>)
    | UseItem(item: string)
    | SoftDelete
    | CommitRun(run: int, effects: seq<Effect>)

  function Perform(c: Character, items: Items, t: Transaction): (r: Outcome) {
    match t
    case Credit(amount, key) => CreditBalance(c, items, amount, key)
    case Spend(amount, key) => DebitYen(c, items, amount, key)
    case Grant(item, quantity, key) => GrantStack(c, items, item, quantity, key)
    case Consume(item, quantity) => ConsumeStack(c, items, item, quantity)
    case Vend(request, machine, drink, price, winning) => PurchaseDrink(c, items, request, machine, drink, price, winning)
    case Award(amount, key) => AwardExperience(c, amount, key)
    case Damage(amount, key) => if amount <= 0 then Err(InvalidRequest) else ChangeHp(c, -amount, key)
    case Heal(amount, key) => if amount <= 0 then Err(InvalidRequest) else ChangeHp(c, amount, key)
    case UseItem(item) => UseHealingItem(c, items, item)
    case SoftDelete => Ok(c.(deleted := true))
    case CommitRun(run, effects) => CommitEffects(c, items, run, effects)
  }

  /** A failed transaction is rolled back. */
  function After(c: Character, items: Items, t: Transaction): (r: Character) {
    match Perform(c, items, t) case Ok(next) => next case Err(_) => c
  }

  function AfterAll(c: Character, items: Items, ts: seq<Transaction>): (r: Character) {
    if ts == [] then c else After(AfterAll(c, items, ts[..|ts| - 1]), items, ts[|ts| - 1])
  }
}
