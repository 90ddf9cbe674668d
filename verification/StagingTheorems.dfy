/** The two readings of a script's effects, staged in memory and committed to the rows, agree. */
module StagingTheorems {
  import opened Common
  import opened ScriptMessages
  import opened EventState
  import opened Ledger
  import opened LedgerTheorems

  /** `c` moved from `c0` as `s` moved from `s0`, and both tell the same story. */
  ghost predicate MovedAlike(c0: Character, c: Character, s0: ScriptState, s: ScriptState) {
    && c.story == s.story
    && c.yen - c0.yen == s.yen - s0.yen
    && (forall item ::
          Quantity(c.inventory, item) - Quantity(c0.inventory, item)
          == Quantity(s.inventory, item) - Quantity(s0.inventory, item))
  }

  lemma StaticArgumentsAreStagedArguments(arguments: seq<Argument>, index: nat)
    ensures StaticArgument(arguments, index, StringKind).Some?
      ==> StringArgument(arguments, index) == Some(StaticArgument(arguments, index, StringKind).value.raw)
    ensures StaticArgument(arguments, index, NumberKind).Some?
      ==> NumberArgument(arguments, index) == StaticArgument(arguments, index, NumberKind).value.number
    ensures StaticInteger(arguments, index).Some? ==> IntegerArgument(arguments, index) == StaticInteger(arguments, index)
  {
  }

  lemma StoryMovesAsStaged(c: Character, items: Items, run: int, effect: Effect, s: ScriptState)
    requires c.story == s.story && TouchesStory(effect.command)
    requires ApplyEffect(c, items, run, effect).Ok? && Stage(s, effect.command, effect.arguments).Ok?
    ensures MovedAlike(c, ApplyEffect(c, items, run, effect).value, s, Stage(s, effect.command, effect.arguments).value)
  {
    StaticArgumentsAreStagedArguments(effect.arguments, 0);
    StaticArgumentsAreStagedArguments(effect.arguments, 1);
  }

  lemma YenMovesAsStaged(c: Character, items: Items, run: int, effect: Effect, s: ScriptState)
    requires c.story == s.story && effect.command in {GrantYen, SpendYen}
    requires ApplyEffect(c, items, run, effect).Ok? && Stage(s, effect.command, effect.arguments).Ok?
    ensures MovedAlike(c, ApplyEffect(c, items, run, effect).value, s, Stage(s, effect.command, effect.arguments).value)
  {
    StaticArgumentsAreStagedArguments(effect.arguments, 0);
    YenEffectShape(c, items, run, effect);
  }

  lemma ItemMovesAsStaged(c: Character, items: Items, run: int, effect: Effect, s: ScriptState)
    requires c.story == s.story && effect.command in {GiveItem, RemoveItem}
    requires ApplyEffect(c, items, run, effect).Ok? && Stage(s, effect.command, effect.arguments).Ok?
    ensures MovedAlike(c, ApplyEffect(c, items, run, effect).value, s, Stage(s, effect.command, effect.arguments).value)
  {
    StaticArgumentsAreStagedArguments(effect.arguments, 0);
    StaticArgumentsAreStagedArguments(effect.arguments, 1);
    ItemEffectShape(c, items, run, effect);
  }

  lemma EffectMovesAsStaged(c: Character, items: Items, run: int, effect: Effect, s: ScriptState)
    requires c.story == s.story
    requires ApplyEffect(c, items, run, effect).Ok? && Stage(s, effect.command, effect.arguments).Ok?
    ensures MovedAlike(c, ApplyEffect(c, items, run, effect).value, s, Stage(s, effect.command, effect.arguments).value)
  {
    if TouchesStory(effect.command) {
      StoryMovesAsStaged(c, items, run, effect, s);
    } else if effect.command in {GrantYen, SpendYen} {
      YenMovesAsStaged(c, items, run, effect, s);
    } else {
      ItemMovesAsStaged(c, items, run, effect, s);
    }
  }

  lemma MovedAlikeTransitive(c0: Character, c1: Character, c2: Character, s0: ScriptState, s1: ScriptState, s2: ScriptState)
    requires MovedAlike(c0, c1, s0, s1) && MovedAlike(c1, c2, s1, s2)
    ensures MovedAlike(c0, c2, s0, s2)
  {
    forall item
      ensures Quantity(c2.inventory, item) - Quantity(c0.inventory, item)
        == Quantity(s2.inventory, item) - Quantity(s0.inventory, item)
    {
      assert Quantity(c1.inventory, item) - Quantity(c0.inventory, item)
        == Quantity(s1.inventory, item) - Quantity(s0.inventory, item);
    }
  }

  /** Whatever yen and inventory have become meanwhile, a commit moves them by the staged amounts. */
  lemma {:induction false} CommitMovesAsStaged(c: Character, items: Items, run: int, effects: seq<Effect>, s: ScriptState)
    requires c.story == s.story
    requires ApplyAll(c, items, run, effects).Ok? && StageAll(s, effects).Ok?
    ensures MovedAlike(c, ApplyAll(c, items, run, effects).value, s, StageAll(s, effects).value)
  {
    if effects != [] {
      var front, last := effects[..|effects| - 1], effects[|effects| - 1];
      CommitMovesAsStaged(c, items, run, front, s);
      var c1, s1 := ApplyAll(c, items, run, front).value, StageAll(s, front).value;
      EffectMovesAsStaged(c1, items, run, last, s1);
      MovedAlikeTransitive(c, c1, ApplyAll(c, items, run, effects).value, s, s1, StageAll(s, effects).value);
    }
  }

  // ---------- Exactly when the two agree ----------

  ghost predicate SameHoldings(c: Character, s: ScriptState) {
    && c.story == s.story && c.yen == s.yen
    && (forall item :: Quantity(c.inventory, item) == Quantity(s.inventory, item))
  }

  predicate AllStatic(arguments: seq<Argument>, count: nat) {
    |arguments| == count && forall i :: 0 <= i < count ==> arguments[i].isStatic
  }

  /** The pattern of story keys: a letter or digit, and then at most 159 of these or of five more characters. */
  predicate MatchesKeyPattern(key: string) {
    && key != [] && Alphanumeric(key[0]) && |key[1..]| <= 159
    && forall c :: c in key[1..] ==> Alphanumeric(c) || c in {'_', '.', ':', '/', '-'}
  }

  lemma StoryKeysMatchTheirPattern(key: string)
    ensures StoryKey(key) <==> MatchesKeyPattern(key)
  {
    if MatchesKeyPattern(key) {
      forall i | 0 <= i < |key| ensures Alphanumeric(key[i]) || key[i] in "_.:/-" {
        if i > 0 { assert key[i] == key[1..][i - 1]; }
        assert "_.:/-"[0] == '_' && "_.:/-"[1] == '.' && "_.:/-"[2] == ':' && "_.:/-"[3] == '/' && "_.:/-"[4] == '-';
      }
    }
  }

  /** What the rows demand of an effect beyond what staging checked. */
  predicate Storable(c: Character, items: Items, run: int, effect: Effect) {
    var arguments := effect.arguments;
    var text := StringArgument(arguments, 0).GetOr("");
    match effect.command
    case SetFlag => AllStatic(arguments, 1) && StoryKey(text)
    case ClearFlag => AllStatic(arguments, 1)
    case SetProgress | IncrementProgress => AllStatic(arguments, 2) && StoryKey(text)
    case GrantYen | SpendYen =>
      && AllStatic(arguments, 2) && !c.deleted
      && StringArgument(arguments, 1).Some? && !Blank(StringArgument(arguments, 1).value)
      && !KeyUsed(c.economy, Some(ScriptKey(run, effect.sequence)))
    case GiveItem =>
      && AllStatic(arguments, 2) && text in items
      && Quantity(c.inventory, text) + IntegerArgument(arguments, 1).GetOr(0) <= items[text].maxStack
      && !KeyUsed(c.economy, Some(ScriptKey(run, effect.sequence)))
    case RemoveItem =>
      AllStatic(arguments, 2) && text in items && !KeyUsed(c.economy, Some(ScriptKey(run, effect.sequence)))
    case _ => false
  }

  lemma StagedArgumentsThatAreStatic(arguments: seq<Argument>, index: nat)
    requires index < |arguments| && arguments[index].isStatic
    ensures StringArgument(arguments, index).Some? <==> StaticArgument(arguments, index, StringKind).Some?
    ensures NumberArgument(arguments, index).Some?
      <==> StaticArgument(arguments, index, NumberKind).Some? && StaticArgument(arguments, index, NumberKind).value.number.Some?
    ensures IntegerArgument(arguments, index) == StaticInteger(arguments, index)
  {
  }

  ghost predicate ReadAlike(arguments: seq<Argument>, index: nat) {
    && (StaticArgument(arguments, index, StringKind).Some?
        ==> StringArgument(arguments, index) == Some(StaticArgument(arguments, index, StringKind).value.raw))
    && (StaticArgument(arguments, index, NumberKind).Some?
        ==> NumberArgument(arguments, index) == StaticArgument(arguments, index, NumberKind).value.number)
    && (index < |arguments| && arguments[index].isStatic ==>
          && (StringArgument(arguments, index).Some? <==> StaticArgument(arguments, index, StringKind).Some?)
          && (NumberArgument(arguments, index).Some?
              <==> StaticArgument(arguments, index, NumberKind).Some?
                   && StaticArgument(arguments, index, NumberKind).value.number.Some?)
          && IntegerArgument(arguments, index) == StaticInteger(arguments, index))
  }

  lemma ArgumentsAreReadAlike(arguments: seq<Argument>, index: nat)
    ensures ReadAlike(arguments, index)
  {
    StaticArgumentsAreStagedArguments(arguments, index);
    if index < |arguments| && arguments[index].isStatic { StagedArgumentsThatAreStatic(arguments, index); }
  }

  ghost predicate CommitsAsStaged(c: Character, items: Items, run: int, effect: Effect, s: ScriptState) {
    ApplyEffect(c, items, run, effect).Ok? <==> Stage(s, effect.command, effect.arguments).Ok? && Storable(c, items, run, effect)
  }

  lemma StoryCommitsAsStaged(c: Character, items: Items, run: int, effect: Effect, s: ScriptState)
    requires effect.command !in {GrantYen, SpendYen, GiveItem, RemoveItem} && c.story == s.story
    requires ReadAlike(effect.arguments, 0) && ReadAlike(effect.arguments, 1)
    ensures CommitsAsStaged(c, items, run, effect, s)
  {
  }

  lemma HoldingsCommitAsStaged(c: Character, items: Items, run: int, effect: Effect, s: ScriptState)
    requires effect.command in {GrantYen, SpendYen, GiveItem, RemoveItem} && SameHoldings(c, s) && InRange(c, items)
    requires ReadAlike(effect.arguments, 0) && ReadAlike(effect.arguments, 1)
    ensures CommitsAsStaged(c, items, run, effect, s)
  {
  }

  /** From equal holdings, an effect commits exactly when it stages and the rows can hold it. */
  lemma EffectCommitsIffStagedAndStorable(c: Character, items: Items, run: int, effect: Effect, s: ScriptState)
    requires SameHoldings(c, s) && InRange(c, items)
    ensures ApplyEffect(c, items, run, effect).Ok?
      <==> Stage(s, effect.command, effect.arguments).Ok? && Storable(c, items, run, effect)
  {
    ArgumentsAreReadAlike(effect.arguments, 0);
    ArgumentsAreReadAlike(effect.arguments, 1);
    if effect.command in {GrantYen, SpendYen, GiveItem, RemoveItem} {
      HoldingsCommitAsStaged(c, items, run, effect, s);
    } else {
      StoryCommitsAsStaged(c, items, run, effect, s);
    }
  }
}
