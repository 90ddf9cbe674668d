/** What a running script sees and stages (internal/scriptevent/state.go). */
module EventState {
  import opened Common
  import opened ScriptMessages

  const MAX_SAFE_INTEGER: int := 0x1F_FFFF_FFFF_FFFF
  const MAX_INT32: int := 0x7FFF_FFFF
  const MAX_INT64: int := 0x7FFF_FFFF_FFFF_FFFF

  datatype Story = Story(flags: map<string, bool>, progress: map<string, real>)

  datatype ScriptState = ScriptState(revision: int, scene: string, yen: int, story: Story, inventory: map<string, int>)

  datatype StageError = NotAString | NotANumber | NotPositive | Insufficient | YenOverflow | NotStaged

  function StringArgument(arguments: seq<Argument>, index: nat): (r: Option<string>) {
    if index >= |arguments| || arguments[index].value.None? || arguments[index].kind != StringKind then None
    else Some(arguments[index].value.value.raw)
  }

  function NumberArgument(arguments: seq<Argument>, index: nat): (r: Option<real>) {
    if index >= |arguments| || arguments[index].value.None? || arguments[index].kind != NumberKind then None
    else arguments[index].value.value.number
  }

  /** A number that is whole and inside the range Yarn represents exactly. */
  function WholeNumber(value: real): (r: Option<int>)
    ensures r.Some? ==> r.value as real == value && -MAX_SAFE_INTEGER <= r.value <= MAX_SAFE_INTEGER
  {
    var whole := value.Floor;
    if whole as real == value && -MAX_SAFE_INTEGER <= whole <= MAX_SAFE_INTEGER then Some(whole) else None
  }

  function IntegerArgument(arguments: seq<Argument>, index: nat): (r: Option<int>) {
    match NumberArgument(arguments, index)
    case None => None
    case Some(value) => WholeNumber(value)
  }

  function Quantity(inventory: map<string, int>, item: string): (r: int) {
    if item in inventory then inventory[item] else 0
  }

  function Progress(progress: map<string, real>, key: string): (r: real) {
    if key in progress then progress[key] else 0.0
  }

  function Without<K, V>(m: map<K, V>, key: K): (r: map<K, V>) {
    m - {key}
  }

  /** The state after one durable command; an error leaves nothing staged. */
  function Stage(s: ScriptState, command: Command, arguments: seq<Argument>): (r: Result<ScriptState, StageError>) {
    match command
    case SetFlag | ClearFlag =>
      (match StringArgument(arguments, 0)
       case None => Err(NotAString)
       case Some(key) =>
         var flags := if command == SetFlag then s.story.flags[key := true] else Without(s.story.flags, key);
         Ok(s.(story := s.story.(flags := flags))))
    case SetProgress | IncrementProgress =>
      (match StringArgument(arguments, 0)
       case None => Err(NotAString)
       case Some(key) =>
         match NumberArgument(arguments, 1)
         case None => Err(NotANumber)
         case Some(value) =>
           if command == IncrementProgress && value <= 0.0 then Err(NotPositive)
           else
             var next := if command == IncrementProgress then value + Progress(s.story.progress, key) else value;
             Ok(s.(story := s.story.(progress := s.story.progress[key := next]))))
    case GrantYen | SpendYen =>
      (match IntegerArgument(arguments, 0)
       case None => Err(NotPositive)
       case Some(amount) =>
         if amount <= 0 then Err(NotPositive)
         else if command == SpendYen then
           if s.yen < amount then Err(Insufficient) else Ok(s.(yen := s.yen - amount))
         else if amount > MAX_INT64 - s.yen then Err(YenOverflow)
         else Ok(s.(yen := s.yen + amount)))
    case GiveItem | RemoveItem =>
      (match StringArgument(arguments, 0)
       case None => Err(NotAString)
       case Some(item) =>
         match IntegerArgument(arguments, 1)
         case None => Err(NotPositive)
         case Some(quantity) =>
           if quantity <= 0 || quantity > MAX_INT32 then Err(NotPositive)
           else if command == RemoveItem && Quantity(s.inventory, item) < quantity then Err(Insufficient)
           else
             var delta := if command == RemoveItem then -quantity else quantity;
             Ok(s.(inventory := s.inventory[item := Quantity(s.inventory, item) + delta])))
    case _ => Err(NotStaged)
  }

  /** The fold of `Stage` over a run's effects. */
  function StageAll(s: ScriptState, effects: seq<Effect>): (r: Result<ScriptState, StageError>) {
    if effects == [] then Ok(s)
    else
      var last := effects[|effects| - 1];
      match StageAll(s, effects[..|effects| - 1])
      case Err(e) => Err(e)
      case Ok(staged) => Stage(staged, last.command, last.arguments)
  }

  // ---------- Queries ----------

  datatype CalendarDate = CalendarDate(year: int, month: int, day: int)

  datatype WorldFacts = WorldFacts(
    gameHour: Option<real>,
    gameDate: Option<CalendarDate>,
    actorPresence: map<string, bool>,
    actorStates: map<string, map<string, real>>,
    actorBounds: map<string, map<string, bool>>,
    objectExistence: map<string, bool>,
    activityResults: map<string, string>
  )

  function DaysInMonth(year: int, month: int): (r: int) {
    if month in {4, 6, 9, 11} then 30
    else if month == 2 then (if year % 4 == 0 && (year % 100 != 0 || year % 400 == 0) then 29 else 28)
    else 31
  }

  predicate ValidDate(date: CalendarDate) {
    && 1 <= date.year <= 9999 && 1 <= date.month <= 12
    && 1 <= date.day <= DaysInMonth(date.year, date.month)
  }

  function Lookup<V>(m: map<string, V>, key: Option<string>): (r: Option<V>) {
    if key.Some? && key.value in m then Some(m[key.value]) else None
  }

  function LookupIn<V>(m: map<string, map<string, V>>, outer: Option<string>, inner: Option<string>): (r: Option<V>) {
    match Lookup(m, outer)
    case None => None
    case Some(row) => Lookup(row, inner)
  }

  function TruthOf(b: Option<bool>): (r: Option<Value>) {
    match b case None => None case Some(v) => Some(BoolValue(v))
  }

  function NumberOf(n: Option<real>): (r: Option<Value>) {
    match n case None => None case Some(v) => Some(NumberValue(v))
  }

  /**
   * The authoritative answer to a query, or None for an error. `drawn` is what the random
   * source returns if this query asks it.
   */
  function ResolveQuery(s: ScriptState, facts: WorldFacts, query: QueryName, arguments: seq<Argument>, drawn: Option<int>)
    : (r: Option<Value>)
  {
    var first, second := StringArgument(arguments, 0), StringArgument(arguments, 1);
    match query
    case FlagSet =>
      if first.None? then None
      else Some(BoolValue(first.value in s.story.flags && s.story.flags[first.value]))
    case ProgressValue =>
      if first.None? then None else Some(NumberValue(Progress(s.story.progress, first.value)))
    case HasItem =>
      var quantity := IntegerArgument(arguments, 1);
      if first.None? || quantity.None? || quantity.value <= 0 then None
      else Some(BoolValue(Quantity(s.inventory, first.value) >= quantity.value))
    case YenQuery => Some(NumberValue(s.yen as real))
    case ActorPresent => TruthOf(Lookup(facts.actorPresence, first))
    case ActorState => NumberOf(LookupIn(facts.actorStates, first, second))
    case InScene => if first.None? then None else Some(BoolValue(first.value == s.scene))
    case GameHour => NumberOf(facts.gameHour)
    case GameDateOnOrAfter =>
      var month, day := IntegerArgument(arguments, 0), IntegerArgument(arguments, 1);
      if month.None? || day.None? || !ValidDate(CalendarDate(2000, month.value, day.value)) then None
      else if facts.gameDate.None? || !ValidDate(facts.gameDate.value) then None
      else
        var date := facts.gameDate.value;
        Some(BoolValue(date.month * 100 + date.day >= month.value * 100 + day.value))
    case RandomInteger =>
      var minimum, maximum := IntegerArgument(arguments, 0), IntegerArgument(arguments, 1);
      if minimum.None? || maximum.None? || minimum.value > maximum.value then None
      else if drawn.None? || drawn.value < minimum.value || drawn.value > maximum.value then None
      else Some(NumberValue(drawn.value as real))
    case ActorInBounds => TruthOf(LookupIn(facts.actorBounds, first, second))
    case ObjectExists => TruthOf(Lookup(facts.objectExistence, first))
    case ActivityResult =>
      (match Lookup(facts.activityResults, first) case None => None case Some(v) => Some(StringValue(v)))
    case UnknownQuery(_) => None
  }

  /** Whether answering the query consults the random source. */
  predicate Draws(query: QueryName, arguments: seq<Argument>) {
    && query == RandomInteger
    && IntegerArgument(arguments, 0).Some? && IntegerArgument(arguments, 1).Some?
    && IntegerArgument(arguments, 0).value <= IntegerArgument(arguments, 1).value
  }

  /** The return types registered for the functions a script may call. */
  function RegisteredKind(query: QueryName): (r: Option<ValueKind>) {
    match query
    case FlagSet | HasItem | ActorPresent | InScene | GameDateOnOrAfter | ActorInBounds => Some(BoolKind)
    case ProgressValue | YenQuery | GameHour | RandomInteger => Some(NumberKind)
    case _ => None
  }

  /** An answer always has the type the runtime was told to expect. */
  lemma AnswersHaveTheRegisteredKind(s: ScriptState, facts: WorldFacts, query: QueryName, arguments: seq<Argument>, drawn: Option<int>)
    requires RegisteredKind(query).Some? && ResolveQuery(s, facts, query, arguments, drawn).Some?
    ensures ResolveQuery(s, facts, query, arguments, drawn).value.Kind() == RegisteredKind(query).value
  {
    match query
    case FlagSet =>
    case _ =>
  }

  /** A query that does not draw is answered the same whatever the source would say. */
  lemma OnlyDrawingQueriesUseTheSource(s: ScriptState, facts: WorldFacts, query: QueryName, arguments: seq<Argument>,
                                       drawn: Option<int>, other: Option<int>)
    requires !Draws(query, arguments)
    ensures ResolveQuery(s, facts, query, arguments, drawn) == ResolveQuery(s, facts, query, arguments, other)
  {
  }

  // ---------- The mutable state of a running event ----------

  class Staging {
    var state: ScriptState
    var effects: seq<Effect>

    constructor (start: ScriptState)
      ensures state == start && effects == []
    {
      state, effects := start, [];
    }

    /** Applies one durable command in place and remembers it for the commit. */
    method StageEffect(effect: Effect) returns (error: Option<StageError>)
      modifies this
      ensures match Stage(old(state), effect.command, effect.arguments)
        case Ok(next) => error == None && state == next && effects == old(effects) + [effect]
        case Err(e) => error == Some(e) && state == old(state) && effects == old(effects)
    {
      var arguments := effect.arguments;
      if effect.command in {SetFlag, ClearFlag} {
        var key := StringArgument(arguments, 0);
        if key.None? { return Some(NotAString); }
        if effect.command == SetFlag {
          state := state.(story := state.story.(flags := state.story.flags[key.value := true]));
        } else {
          state := state.(story := state.story.(flags := Without(state.story.flags, key.value)));
        }
      } else if effect.command in {SetProgress, IncrementProgress} {
        var key := StringArgument(arguments, 0);
        if key.None? { return Some(NotAString); }
        var number := NumberArgument(arguments, 1);
        if number.None? { return Some(NotANumber); }
        var value := number.value;
        if effect.command == IncrementProgress {
          if value <= 0.0 { return Some(NotPositive); }
          value := value + Progress(state.story.progress, key.value);
        }
        state := state.(story := state.story.(progress := state.story.progress[key.value := value]));
      } else if effect.command in {GrantYen, SpendYen} {
        var amount := IntegerArgument(arguments, 0);
        if amount.None? || amount.value <= 0 { return Some(NotPositive); }
        if effect.command == SpendYen {
          if state.yen < amount.value { return Some(Insufficient); }
          state := state.(yen := state.yen - amount.value);
        } else {
          if amount.value > MAX_INT64 - state.yen { return Some(YenOverflow); }
          state := state.(yen := state.yen + amount.value);
        }
      } else if effect.command in {GiveItem, RemoveItem} {
        var item := StringArgument(arguments, 0);
        if item.None? { return Some(NotAString); }
        var quantity := IntegerArgument(arguments, 1);
        if quantity.None? || quantity.value <= 0 || quantity.value > MAX_INT32 { return Some(NotPositive); }
        var held := Quantity(state.inventory, item.value);
        if effect.command == RemoveItem {
          if held < quantity.value { return Some(Insufficient); }
          state := state.(inventory := state.inventory[item.value := held - quantity.value]);
        } else {
          state := state.(inventory := state.inventory[item.value := held + quantity.value]);
        }
      } else {
        return Some(NotStaged);
      }
      effects := effects + [effect];
      return None;
    }
  }
}
