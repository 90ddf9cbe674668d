/** The database transactions as the server runs them: rows are read, changed one by one, and written back together. */
module Store {
  import opened Common
  import opened ScriptMessages
  import opened EventState
  import opened Ledger
  import opened ScriptRuns
  import Dispatch
  import LedgerTheorems

  class ScriptStore {
    const items: Items
    var characters: map<int, Character>
    var runs: map<int, Run>
    var nextRun: int

    ghost function Value(): (db: Db)
      reads this
    {
      Db(characters, runs, nextRun)
    }

    constructor (items: Items, db: Db)
      ensures this.items == items && Value() == db
    {
      this.items := items;
      characters, runs, nextRun := db.characters, db.runs, db.nextRun;
    }

    // ---------- Script runs ----------

    method StartPublishedScriptEventExcluding(q: StartRequest) returns (r: Result<Started, StoreError>)
      modifies this
      ensures match StartRun(old(Value()), q)
        case Ok(launch) => Value() == launch.db && r == Ok(launch.started)
        case Err(e) => Value() == old(Value()) && r == Err(e)
    {
      if q.character !in characters || characters[q.character].account != q.account || characters[q.character].deleted {
        return Err(NotFound);
      }
      var row := characters[q.character];
      var rows := runs;
      ghost var expired := ExpireLapsed(runs, q.character, q.now);
      rows := ExpireLapsed(rows, q.character, q.now);
      var candidate := Dispatch.ResolvePublishedTrigger(q.rows, q.excluded);
      if candidate.Err? {
        return Err(if candidate.error.TriggerNotFound? then TriggerMissing else TriggerAmbiguous);
      }
      var scene := row.world;
      if q.area != "" {
        scene := q.area;
      }
      if SlotTaken(rows, q.character, q.token) {
        return Err(ScriptEventActive);
      }
      var id := nextRun;
      rows := rows[id := Run(q.character, candidate.value.version, q.token, q.expires, row.revision, Active, false)];
      runs, nextRun := rows, nextRun + 1;
      return Ok(Started(id, candidate.value.version, ScriptState(row.revision, scene, row.yen, row.story, row.inventory)));
    }

    method RenewScriptEvent(id: int, token: int, now: int, expires: int) returns (r: Result<int, StoreError>)
      modifies this
      ensures match RenewRun(old(Value()), id, token, now, expires)
        case Ok(db) => Value() == db && r == Ok(expires)
        case Err(e) => Value() == old(Value()) && r == Err(e)
    {
      if id !in runs || runs[id].token != token || runs[id].status != Active || runs[id].leaseExpires <= now {
        return Err(ScriptEventEnded);
      }
      runs := runs[id := runs[id].(leaseExpires := expires)];
      return Ok(expires);
    }

    method CancelScriptEvent(id: int, token: int) returns (error: Option<StoreError>)
      modifies this
      ensures match CloseRun(old(Value()), id, token, CancelledRun)
        case Ok(db) => Value() == db && error == None
        case Err(e) => Value() == old(Value()) && error == Some(e)
    {
      if id !in runs || runs[id].token != token || runs[id].status != Active {
        return Some(ScriptEventEnded);
      }
      runs := runs[id := runs[id].(status := CancelledRun)];
      return None;
    }

    method FailScriptEvent(id: int, token: int) returns (error: Option<StoreError>)
      modifies this
      ensures match CloseRun(old(Value()), id, token, FailedRun)
        case Ok(db) => Value() == db && error == None
        case Err(e) => Value() == old(Value()) && error == Some(e)
    {
      if id !in runs || runs[id].token != token || runs[id].status != Active {
        return Some(ScriptEventEnded);
      }
      runs := runs[id := runs[id].(status := FailedRun)];
      return None;
    }

    /** All effects, the revision and the terminal status are written together or not at all. */
    method FinishScriptEvent(id: int, token: int, expected: int, effects: seq<Effect>, passed: bool, now: int)
      returns (r: Result<int, StoreError>)
      modifies this
      ensures match FinishRun(old(Value()), items, id, token, expected, effects, passed, now)
        case Ok(db) =>
          && Value() == db && id in db.runs && db.runs[id].character in db.characters
          && r == Ok(db.characters[db.runs[id].character].revision)
        case Err(e) => Value() == old(Value()) && r == Err(e)
    {
      if id !in runs || runs[id].token != token || runs[id].status != Active || runs[id].leaseExpires <= now
        || runs[id].stateRevision != expected || runs[id].character !in characters
      {
        return Err(ScriptEventEnded);
      }
      var owner := runs[id].character;
      var revision := characters[owner].revision;
      if revision != expected {
        return Err(RevisionConflict);
      }
      var applied := ApplyEffects(characters[owner], items, id, effects);
      if applied.Err? {
        return Err(applied.error);
      }
      EffectsLeaveTheRevision(characters[owner], items, id, effects);
      var row := applied.value;
      var newRevision := revision;
      if |effects| > 0 {
        newRevision := newRevision + 1;
        row := row.(revision := newRevision);
      }
      var status := if passed then PassedRun else CompletedRun;
      characters := characters[owner := row];
      runs := runs[id := runs[id].(status := status, completionRequested := !passed)];
      return Ok(newRevision);
    }

    // ---------- Economy ----------

    method CreditYen(character: int, amount: int, key: Option<EventKey>) returns (r: Result<int, StoreError>)
      modifies this
      ensures Written(old(Value()), Value(), items, character, Credit(amount, key), r)
      ensures r.Ok? ==> character in characters && r.value == characters[character].yen
    {
      if character !in characters { return Err(NotFound); }
      if amount <= 0 { return Err(InvalidRequest); }
      var row := characters[character];
      var recorded := RecordEconomy(row, items, EconomyEvent(key, YenCredit, None, 0, amount));
      if recorded.Err? { return Err(recorded.error); }
      row := recorded.value;
      if row.deleted { return Err(NotFound); }
      var balance := row.yen + amount;
      if balance > MAX_INT64 { return Err(OutOfRange); }
      characters := characters[character := row.(yen := balance)];
      return Ok(balance);
    }

    method SpendYen(character: int, amount: int, key: Option<EventKey>) returns (r: Result<int, StoreError>)
      modifies this
      ensures Written(old(Value()), Value(), items, character, Spend(amount, key), r)
      ensures r.Ok? ==> character in characters && r.value == characters[character].yen
    {
      if character !in characters { return Err(NotFound); }
      if amount <= 0 { return Err(InvalidRequest); }
      var row := characters[character];
      if row.deleted || row.yen < amount { return Err(InsufficientFunds); }
      row := row.(yen := row.yen - amount);
      var recorded := RecordEconomy(row, items, EconomyEvent(key, YenSpend, None, 0, -amount));
      if recorded.Err? { return Err(recorded.error); }
      characters := characters[character := recorded.value];
      return Ok(row.yen);
    }

    method GrantItem(character: int, item: string, quantity: int, key: Option<EventKey>) returns (r: Result<int, StoreError>)
      modifies this
      ensures Written(old(Value()), Value(), items, character, Grant(item, quantity, key), r)
      ensures r.Ok? ==> character in characters && r.value == Quantity(characters[character].inventory, item)
    {
      if character !in characters { return Err(NotFound); }
      if quantity <= 0 { return Err(InvalidRequest); }
      var recorded := RecordEconomy(characters[character], items, EconomyEvent(key, ItemGrant, Some(item), quantity, 0));
      if recorded.Err? { return Err(recorded.error); }
      var row := recorded.value;
      if item !in items || quantity > items[item].maxStack { return Err(InsufficientFunds); }
      var newQuantity := quantity;
      if item in row.inventory {
        newQuantity := row.inventory[item] + quantity;
      }
      if newQuantity > items[item].maxStack { return Err(InsufficientFunds); }
      characters := characters[character := row.(inventory := row.inventory[item := newQuantity])];
      return Ok(newQuantity);
    }

    method ConsumeItem(character: int, item: string, quantity: int) returns (r: Result<int, StoreError>)
      modifies this
      ensures Written(old(Value()), Value(), items, character, Consume(item, quantity), r)
      ensures r.Ok? ==> character in characters && r.value == Quantity(characters[character].inventory, item)
    {
      if character !in characters { return Err(NotFound); }
      if quantity <= 0 { return Err(InvalidRequest); }
      var row := characters[character];
      if item !in row.inventory || row.inventory[item] < quantity { return Err(InsufficientFunds); }
      var remaining := row.inventory[item] - quantity;
      if remaining == 0 {
        row := row.(inventory := Without(row.inventory, item));
      } else {
        row := row.(inventory := row.inventory[item := remaining]);
      }
      var recorded := RecordEconomy(row, items, EconomyEvent(None, ItemConsume, Some(item), -quantity, 0));
      if recorded.Err? { return Err(recorded.error); }
      characters := characters[character := recorded.value];
      return Ok(remaining);
    }

    method PurchaseVendingDrink(character: int, request: string, machine: string, drink: string, price: int, winning: bool)
      returns (r: Result<Purchase, StoreError>)
      modifies this
      ensures match Transact(old(Value()), items, character, Vend(request, machine, drink, price, winning))
        case Ok(db) =>
          && Value() == db && character in db.characters && request in db.characters[character].purchases
          && r == Ok(db.characters[character].purchases[request])
        case Err(e) => Value() == old(Value()) && r == Err(e)
    {
      if character !in characters { return Err(NotFound); }
      if request == "" || machine == "" || drink == "" || price <= 0 { return Err(InvalidRequest); }
      var row := characters[character];
      if request in row.purchases {
        var existing := row.purchases[request];
        if existing.machine != machine || existing.drink != drink { return Err(DuplicateEvent); }
        if row.deleted { return Err(NotFound); }
        assert characters[character := row] == characters;
        return Ok(existing);
      }
      if row.deleted || row.yen < price { return Err(InsufficientFunds); }
      row := row.(yen := row.yen - price);
      var prize := winning;
      if winning {
        if WINNING_CAN !in items { return Err(MissingDefinition); }
        if WINNING_CAN !in row.inventory {
          row := row.(inventory := row.inventory[WINNING_CAN := 1]);
        } else if row.inventory[WINNING_CAN] < items[WINNING_CAN].maxStack {
          row := row.(inventory := row.inventory[WINNING_CAN := row.inventory[WINNING_CAN] + 1]);
        } else {
          prize := false;
        }
      }
      var purchase := Purchase(machine, drink, price, prize);
      row := row.(purchases := row.purchases[request := purchase]);
      var event := EconomyEvent(Some(VendingKey(request)), VendingSale, None, 0, -price);
      if prize {
        event := event.(item := Some(WINNING_CAN), quantityDelta := 1);
      }
      var recorded := RecordEconomy(row, items, event);
      if recorded.Err? { return Err(recorded.error); }
      characters := characters[character := recorded.value];
      return Ok(purchase);
    }

    // ---------- Progression ----------

    method GainExperience(character: int, amount: int, key: Option<EventKey>) returns (r: Result<int, StoreError>)
      modifies this
      ensures Written(old(Value()), Value(), items, character, Award(amount, key), r)
      ensures r.Ok? ==> character in characters && r.value == characters[character].experience
    {
      if character !in characters { return Err(NotFound); }
      if amount <= 0 { return Err(InvalidRequest); }
      var row := characters[character];
      if ProgressionKeyUsed(row.progression, key) { return Err(DuplicateEvent); }
      row := row.(progression := row.progression + [ProgressionEvent(key, amount, 0)]);
      if row.deleted { return Err(NotFound); }
      var newExperience := row.experience + amount;
      if newExperience > MAX_INT64 { return Err(OutOfRange); }
      characters := characters[character := row.(experience := newExperience)];
      return Ok(newExperience);
    }

    method ApplyHpChange(character: int, amount: int, key: Option<EventKey>, damage: bool) returns (r: Result<int, StoreError>)
      modifies this
      ensures Written(old(Value()), Value(), items, character, if damage then Damage(amount, key) else Heal(amount, key), r)
      ensures r.Ok? ==> character in characters && r.value == characters[character].currentHp
    {
      if character !in characters { return Err(NotFound); }
      if amount <= 0 { return Err(InvalidRequest); }
      var row := characters[character];
      if row.deleted { return Err(NotFound); }
      var newHp := Clamp(row.currentHp + (if damage then -amount else amount), row.maxHp);
      if ProgressionKeyUsed(row.progression, key) { return Err(DuplicateEvent); }
      row := row.(currentHp := newHp, progression := row.progression + [ProgressionEvent(key, 0, newHp - row.currentHp)]);
      characters := characters[character := row];
      return Ok(newHp);
    }

    method ConsumeHealingItem(character: int, item: string) returns (r: Result<int, StoreError>)
      modifies this
      ensures Written(old(Value()), Value(), items, character, UseItem(item), r)
      ensures r.Ok? ==> character in characters && r.value == Quantity(characters[character].inventory, item)
    {
      if character !in characters { return Err(NotFound); }
      var row := characters[character];
      if item !in row.inventory || item !in items || items[item].heals.None? { return Err(InsufficientFunds); }
      if row.deleted { return Err(NotFound); }
      if row.currentHp >= row.maxHp { return Err(HpAlreadyFull); }
      if row.inventory[item] < 1 { return Err(InsufficientFunds); }
      var remaining := row.inventory[item] - 1;
      if remaining == 0 {
        row := row.(inventory := Without(row.inventory, item));
      } else {
        row := row.(inventory := row.inventory[item := remaining]);
      }
      row := row.(economy := row.economy + [EconomyEvent(None, ItemConsume, Some(item), -1, 0)]);
      var newHp := Clamp(row.currentHp + items[item].heals.value, row.maxHp);
      row := row.(currentHp := newHp, progression := row.progression + [ProgressionEvent(None, 0, newHp - row.currentHp)]);
      characters := characters[character := row];
      return Ok(remaining);
    }
  }

  /** The effects of a run, one after the other, inside its transaction. */
  method ApplyEffects(c: Character, items: Items, id: int, effects: seq<Effect>) returns (r: Result<Character, StoreError>)
    ensures r == ApplyAll(c, items, id, effects)
  {
    var row, lastSequence, next := c, 0, 0;
    while next < |effects|
      invariant 0 <= next <= |effects|
      invariant ApplyAll(c, items, id, effects[..next]) == Ok(row)
      invariant lastSequence == LastSequence(effects[..next])
    {
      var effect := effects[next];
      ApplyAllStep(c, items, id, effects, next, row);
      if effect.sequence <= lastSequence {
        ApplyAllStops(c, items, id, effects, next + 1);
        return Err(EffectsOutOfOrder);
      }
      lastSequence := effect.sequence;
      var applied := ApplyEffect(row, items, id, effect);
      if applied.Err? {
        ApplyAllStops(c, items, id, effects, next + 1);
        return Err(applied.error);
      }
      row := applied.value.(applied := applied.value.applied + [AppliedEffect(id, effect)]);
      next := next + 1;
    }
    assert effects[..|effects|] == effects;
    return Ok(row);
  }

  /** The rows after a transaction, and whether it was reported as done. */
  ghost predicate Written<T>(before: Db, now: Db, items: Items, character: int, t: OutsideTransaction, r: Result<T, StoreError>) {
    match Transact(before, items, character, t)
    case Ok(db) => now == db && r.Ok?
    case Err(e) => now == before && r == Err(e)
  }

  lemma {:induction false} ApplyAllStops(c: Character, items: Items, id: int, effects: seq<Effect>, n: nat)
    requires n <= |effects| && ApplyAll(c, items, id, effects[..n]).Err?
    ensures ApplyAll(c, items, id, effects) == ApplyAll(c, items, id, effects[..n])
    decreases |effects| - n
  {
    if n == |effects| {
      assert effects[..n] == effects;
    } else {
      assert effects[..n + 1][..n] == effects[..n];
      ApplyAllStops(c, items, id, effects, n + 1);
    }
  }

  lemma EffectsLeaveTheRevision(c: Character, items: Items, id: int, effects: seq<Effect>)
    requires ApplyAll(c, items, id, effects).Ok?
    ensures ApplyAll(c, items, id, effects).value.revision == c.revision
  {
    LedgerTheorems.EffectsKeep(c, items, id, effects);
  }

  /** The prefix of length `n + 1` continues the prefix of length `n`. */
  lemma ApplyAllStep(c: Character, items: Items, id: int, effects: seq<Effect>, n: nat, row: Character)
    requires n < |effects| && ApplyAll(c, items, id, effects[..n]) == Ok(row)
    ensures ApplyAll(c, items, id, effects[..n + 1]) ==
      if effects[n].sequence <= LastSequence(effects[..n]) then Err(EffectsOutOfOrder) else ApplyNext(row, items, id, effects[n])
    ensures LastSequence(effects[..n + 1]) == effects[n].sequence
  {
    assert effects[..n + 1][..n] == effects[..n];
  }
}
