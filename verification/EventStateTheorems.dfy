/** What a script is told is what it has staged, and what the world is (internal/scriptevent/state.go). */
module EventStateTheorems {
  import opened Common
  import opened ScriptMessages
  import opened EventState

  // ---------- Answers and effects ----------

  /** The answer to a query that draws nothing. */
  function Answer(s: ScriptState, facts: WorldFacts, query: QueryName, arguments: seq<Argument>): (r: Option<Value>) {
    ResolveQuery(s, facts, query, arguments, None)
  }

  /** A script is told that a player has items exactly when taking them would be staged. */
  lemma HasItemIffItCanBeRemoved(s: ScriptState, facts: WorldFacts, arguments: seq<Argument>)
    requires StringArgument(arguments, 0).Some? && IntegerArgument(arguments, 1).Some?
    requires 0 < IntegerArgument(arguments, 1).value <= MAX_INT32
    ensures Answer(s, facts, HasItem, arguments) == Some(BoolValue(Stage(s, RemoveItem, arguments).Ok?))
  {
  }

  /** It is told of an amount of yen that it can spend at most. */
  lemma YenIsWhatCanBeSpent(s: ScriptState, facts: WorldFacts, asked: seq<Argument>, spent: seq<Argument>)
    requires IntegerArgument(spent, 0).Some? && IntegerArgument(spent, 0).value > 0
    ensures
      var answer := Answer(s, facts, YenQuery, asked);
      && answer.Some? && answer.value.NumberValue?
      && (answer.value.number >= IntegerArgument(spent, 0).value as real <==> Stage(s, SpendYen, spent).Ok?)
  {
  }

  // ---------- Whole runs of effects ----------

  /** Whether `effect` is about `key`. */
  predicate Names(effect: Effect, key: string) {
    StringArgument(effect.arguments, 0) == Some(key)
  }

  /** The last flag command on the key decides. */
  function FlagAfter(effects: seq<Effect>, key: string, start: bool): (isSet: bool) {
    if effects == [] then start
    else
      var last := effects[|effects| - 1];
      if last.command == SetFlag && Names(last, key) then true
      else if last.command == ClearFlag && Names(last, key) then false
      else FlagAfter(effects[..|effects| - 1], key, start)
  }

  /** The value last set, and the increments since. */
  function ProgressAfter(effects: seq<Effect>, key: string, start: real): (value: real) {
    if effects == [] then start
    else
      var last, before := effects[|effects| - 1], ProgressAfter(effects[..|effects| - 1], key, start);
      var value := NumberArgument(last.arguments, 1).GetOr(0.0);
      if last.command == SetProgress && Names(last, key) then value
      else if last.command == IncrementProgress && Names(last, key) then before + value
      else before
  }

  /** The amounts granted less the amounts spent. */
  function YenMoved(effects: seq<Effect>): (amount: int) {
    if effects == [] then 0
    else
      var last := effects[|effects| - 1];
      var amount := IntegerArgument(last.arguments, 0).GetOr(0);
      YenMoved(effects[..|effects| - 1])
      + if last.command == GrantYen then amount else if last.command == SpendYen then -amount else 0
  }

  /** The quantities given less the quantities taken. */
  function ItemsMoved(effects: seq<Effect>, item: string): (quantity: int) {
    if effects == [] then 0
    else
      var last := effects[|effects| - 1];
      var quantity := IntegerArgument(last.arguments, 1).GetOr(0);
      ItemsMoved(effects[..|effects| - 1], item)
      + if !Names(last, item) then 0 else if last.command == GiveItem then quantity else if last.command == RemoveItem then -quantity else 0
  }

  function FlagIn(s: ScriptState, key: string): (isSet: bool) {
    key in s.story.flags && s.story.flags[key]
  }

  /** What one staged effect does to what the script can ask for. */
  ghost predicate Moves(s: ScriptState, effect: Effect, t: ScriptState) {
    && (forall key :: FlagIn(t, key) == FlagAfter([effect], key, FlagIn(s, key)))
    && (forall key :: Progress(t.story.progress, key) == ProgressAfter([effect], key, Progress(s.story.progress, key)))
    && t.yen == s.yen + YenMoved([effect])
    && (forall item :: Quantity(t.inventory, item) == Quantity(s.inventory, item) + ItemsMoved([effect], item))
    && t.scene == s.scene && t.revision == s.revision
  }

  lemma StoryMoves(s: ScriptState, effect: Effect)
    requires effect.command in {SetFlag, ClearFlag, SetProgress, IncrementProgress}
    requires Stage(s, effect.command, effect.arguments).Ok?
    ensures Moves(s, effect, Stage(s, effect.command, effect.arguments).value)
  {
  }

  lemma HoldingsMove(s: ScriptState, effect: Effect)
    requires effect.command in {GrantYen, SpendYen, GiveItem, RemoveItem}
    requires Stage(s, effect.command, effect.arguments).Ok?
    ensures Moves(s, effect, Stage(s, effect.command, effect.arguments).value)
  {
  }

  /** The answers after some effects, from the answers before them. */
  ghost predicate AnswersAfter(s: ScriptState, effects: seq<Effect>, t: ScriptState) {
    && (forall key :: FlagIn(t, key) == FlagAfter(effects, key, FlagIn(s, key)))
    && (forall key :: Progress(t.story.progress, key) == ProgressAfter(effects, key, Progress(s.story.progress, key)))
    && t.yen == s.yen + YenMoved(effects)
    && (forall item :: Quantity(t.inventory, item) == Quantity(s.inventory, item) + ItemsMoved(effects, item))
    && t.scene == s.scene && t.revision == s.revision
  }

  lemma OneMoreForStory(effects: seq<Effect>, last: Effect, key: string, isSet: bool, value: real)
    ensures FlagAfter(effects + [last], key, isSet) == FlagAfter([last], key, FlagAfter(effects, key, isSet))
    ensures ProgressAfter(effects + [last], key, value) == ProgressAfter([last], key, ProgressAfter(effects, key, value))
  {
    assert (effects + [last])[..|effects|] == effects && [last][..0] == [];
  }

  lemma OneMoreForHoldings(effects: seq<Effect>, last: Effect, item: string)
    ensures YenMoved(effects + [last]) == YenMoved(effects) + YenMoved([last])
    ensures ItemsMoved(effects + [last], item) == ItemsMoved(effects, item) + ItemsMoved([last], item)
  {
    assert (effects + [last])[..|effects|] == effects && [last][..0] == [];
  }

  lemma OneMoreEffect(s: ScriptState, effects: seq<Effect>, t: ScriptState, last: Effect, u: ScriptState)
    requires AnswersAfter(s, effects, t) && Moves(t, last, u)
    ensures AnswersAfter(s, effects + [last], u)
  {
    forall key
      ensures FlagIn(u, key) == FlagAfter(effects + [last], key, FlagIn(s, key))
      ensures Progress(u.story.progress, key) == ProgressAfter(effects + [last], key, Progress(s.story.progress, key))
    {
      OneMoreForStory(effects, last, key, FlagIn(s, key), Progress(s.story.progress, key));
    }
    forall item ensures Quantity(u.inventory, item) == Quantity(s.inventory, item) + ItemsMoved(effects + [last], item) {
      OneMoreForHoldings(effects, last, item);
    }
    OneMoreForHoldings(effects, last, "");
  }

  lemma {:induction false} EffectsMoveTheAnswers(s: ScriptState, effects: seq<Effect>)
    requires StageAll(s, effects).Ok?
    ensures AnswersAfter(s, effects, StageAll(s, effects).value)
  {
    if effects != [] {
      var front, last := effects[..|effects| - 1], effects[|effects| - 1];
      EffectsMoveTheAnswers(s, front);
      var t := StageAll(s, front).value;
      if last.command in {SetFlag, ClearFlag, SetProgress, IncrementProgress} {
        StoryMoves(t, last);
      } else {
        HoldingsMove(t, last);
      }
      OneMoreEffect(s, front, t, last, StageAll(s, effects).value);
      assert effects == front + [last];
    }
  }

  /** A script is told of a flag what is stored, and after any effects what the last command on it said. */
  lemma FlagsAreToldAsStaged(s: ScriptState, facts: WorldFacts, effects: seq<Effect>, arguments: seq<Argument>, key: string)
    requires StageAll(s, effects).Ok? && StringArgument(arguments, 0) == Some(key)
    ensures
      var stored := key in s.story.flags && s.story.flags[key];
      && Answer(s, facts, FlagSet, arguments) == Some(BoolValue(stored))
      && Answer(StageAll(s, effects).value, facts, FlagSet, arguments) == Some(BoolValue(FlagAfter(effects, key, stored)))
  {
    EffectsMoveTheAnswers(s, effects);
    assert FlagIn(StageAll(s, effects).value, key) == FlagAfter(effects, key, FlagIn(s, key));
  }

  /** Of progress, the value last set and the increments since. */
  lemma ProgressIsToldAsStaged(s: ScriptState, facts: WorldFacts, effects: seq<Effect>, arguments: seq<Argument>, key: string)
    requires StageAll(s, effects).Ok? && StringArgument(arguments, 0) == Some(key)
    ensures
      var stored := if key in s.story.progress then s.story.progress[key] else 0.0;
      && Answer(s, facts, ProgressValue, arguments) == Some(NumberValue(stored))
      && Answer(StageAll(s, effects).value, facts, ProgressValue, arguments) == Some(NumberValue(ProgressAfter(effects, key, stored)))
  {
    EffectsMoveTheAnswers(s, effects);
    var t := StageAll(s, effects).value;
    assert Progress(t.story.progress, key) == ProgressAfter(effects, key, Progress(s.story.progress, key));
  }

  /** Of yen, what it began with and all that was moved since. */
  lemma YenIsToldAsStaged(s: ScriptState, facts: WorldFacts, effects: seq<Effect>, arguments: seq<Argument>)
    requires StageAll(s, effects).Ok?
    ensures Answer(StageAll(s, effects).value, facts, YenQuery, arguments) == Some(NumberValue((s.yen + YenMoved(effects)) as real))
  {
    EffectsMoveTheAnswers(s, effects);
  }

  /** Of items, whether what it began with and all that was moved since come to the quantity asked for. */
  lemma ItemsAreToldAsStaged(s: ScriptState, facts: WorldFacts, effects: seq<Effect>, arguments: seq<Argument>, item: string, asked: int)
    requires StageAll(s, effects).Ok?
    requires StringArgument(arguments, 0) == Some(item) && IntegerArgument(arguments, 1) == Some(asked) && asked > 0
    ensures Answer(StageAll(s, effects).value, facts, HasItem, arguments)
      == Some(BoolValue(Quantity(s.inventory, item) + ItemsMoved(effects, item) >= asked))
  {
    EffectsMoveTheAnswers(s, effects);
    var t := StageAll(s, effects).value;
    assert Quantity(t.inventory, item) == Quantity(s.inventory, item) + ItemsMoved(effects, item);
  }

  /** Effects never move the scene that the script is told of. */
  lemma TheSceneStays(s: ScriptState, facts: WorldFacts, effects: seq<Effect>, arguments: seq<Argument>, scene: string)
    requires StageAll(s, effects).Ok? && StringArgument(arguments, 0) == Some(scene)
    ensures Answer(StageAll(s, effects).value, facts, InScene, arguments) == Some(BoolValue(scene == s.scene))
  {
    EffectsMoveTheAnswers(s, effects);
  }

  /** Nothing is told of a flag, progress or item that is not named, or of less than one item. */
  lemma UnnamedIsNotAnswered(s: ScriptState, facts: WorldFacts, arguments: seq<Argument>)
    ensures StringArgument(arguments, 0).None? <==> Answer(s, facts, FlagSet, arguments).None?
    ensures StringArgument(arguments, 0).None? <==> Answer(s, facts, ProgressValue, arguments).None?
    ensures StringArgument(arguments, 0).None? <==> Answer(s, facts, InScene, arguments).None?
    ensures Answer(s, facts, HasItem, arguments).Some?
      <==> StringArgument(arguments, 0).Some? && IntegerArgument(arguments, 1).Some? && IntegerArgument(arguments, 1).value >= 1
  {
  }

  // ---------- Facts ----------

  /** The world facts give exactly this value to a query about actors, objects, activities or the hour. */
  predicate Supplies(facts: WorldFacts, query: QueryName, first: Option<string>, second: Option<string>, value: Value) {
    match query
    case ActorPresent => first.Some? && value.BoolValue? && (first.value, value.truth) in facts.actorPresence.Items
    case ObjectExists => first.Some? && value.BoolValue? && (first.value, value.truth) in facts.objectExistence.Items
    case ActivityResult => first.Some? && value.StringValue? && (first.value, value.text) in facts.activityResults.Items
    case ActorState =>
      && first.Some? && second.Some? && value.NumberValue?
      && first.value in facts.actorStates && (second.value, value.number) in facts.actorStates[first.value].Items
    case ActorInBounds =>
      && first.Some? && second.Some? && value.BoolValue?
      && first.value in facts.actorBounds && (second.value, value.truth) in facts.actorBounds[first.value].Items
    case GameHour => value.NumberValue? && facts.gameHour == Some(value.number)
    case _ => false
  }

  /** Such a query is answered with the fact supplied, and only if there is one. */
  lemma FactsAreAnsweredAsSupplied(s: ScriptState, facts: WorldFacts, query: QueryName, arguments: seq<Argument>, value: Value)
    requires query in {ActorPresent, ObjectExists, ActivityResult, ActorState, ActorInBounds, GameHour}
    ensures Answer(s, facts, query, arguments) == Some(value)
      <==> Supplies(facts, query, StringArgument(arguments, 0), StringArgument(arguments, 1), value)
  {
  }

  /** A day of the year, on or after another one. */
  predicate OnOrAfter(month: int, day: int, date: CalendarDate) {
    date.month > month || (date.month == month && date.day >= day)
  }

  /** The date is compared within its year; there must be one, and the one asked for must be a day of a leap year. */
  lemma DatesAreComparedWithinAYear(s: ScriptState, facts: WorldFacts, arguments: seq<Argument>, truth: bool)
    ensures Answer(s, facts, GameDateOnOrAfter, arguments) == Some(BoolValue(truth))
      <==>
        && facts.gameDate.Some? && ValidDate(facts.gameDate.value)
        && IntegerArgument(arguments, 0).Some? && IntegerArgument(arguments, 1).Some?
        && ValidDate(CalendarDate(2000, IntegerArgument(arguments, 0).value, IntegerArgument(arguments, 1).value))
        && truth == OnOrAfter(IntegerArgument(arguments, 0).value, IntegerArgument(arguments, 1).value, facts.gameDate.value)
  {
  }

  /** A random number is the one drawn, if it lies between the bounds asked for. */
  lemma RandomNumbersAreTheOnesDrawn(s: ScriptState, facts: WorldFacts, arguments: seq<Argument>, drawn: Option<int>, n: int)
    ensures ResolveQuery(s, facts, RandomInteger, arguments, drawn) == Some(NumberValue(n as real))
      <==>
        && drawn == Some(n)
        && IntegerArgument(arguments, 0).Some? && IntegerArgument(arguments, 0).value <= n
        && IntegerArgument(arguments, 1).Some? && n <= IntegerArgument(arguments, 1).value
  {
  }
}
