/**
 * The lockstep between the controller's session (internal/scriptruntime/session.go) and the
 * script host process (tools/yarn-compiler/RuntimeHost.cs), joined by a queue of unread events.
 */
module RuntimeProtocol {
  import opened Common
  import opened ScriptMessages
  import opened EventState

  const MAX_YIELD_EVENTS := 10_000

  /** Which calls the command registry accepts. */
  datatype Registry = Registry(command: (Command, seq<Argument>) -> bool, query: (QueryName, seq<Argument>) -> bool) {
    ghost predicate Valid() {
      forall name, arguments :: query(name, arguments) ==> RegisteredKind(name).Some?
    }
  }

  // ---------- The controller's side ----------

  datatype Awaiting = Nothing | AwaitContinue | AwaitResult | AwaitSelect

  datatype SessionState = SessionState(sequence: int, awaiting: Awaiting, queryId: int, options: set<int>, terminal: bool)

  const NEW_SESSION := SessionState(0, Nothing, 0, {}, false)

  datatype SessionError = Ended | Unrequested | InputRequired | WrongInput | RuntimeError | OutOfSequence | InvalidEvent

  function AcceptInput(s: SessionState, input: Option<Input>): (r: Result<SessionState, SessionError>) {
    if s.awaiting == Nothing then (if input.Some? then Err(Unrequested) else Ok(s))
    else
      match input
      case None => Err(InputRequired)
      case Some(Cancel) => Ok(s)
      case Some(i) =>
        var answers :=
          if s.awaiting == AwaitContinue then i == Continue
          else if s.awaiting == AwaitResult then i.QueryResult? && i.queryId == s.queryId
          else i.Select? && i.optionId in s.options;
        if answers then Ok(s.(awaiting := Nothing, options := {})) else Err(WrongInput)
  }

  function AvailableIds(offers: seq<Offer>): (ids: set<int>) {
    set i | 0 <= i < |offers| && offers[i].isAvailable :: offers[i].id
  }

  function OfferedIds(offers: seq<Offer>): (ids: set<int>) {
    set i | 0 <= i < |offers| :: offers[i].id
  }

  /** The content checks on an event, apart from its sequence number. */
  predicate WellFormed(registry: Registry, event: Event) {
    match event
    case NodeStart(_, node) => !Blank(node)
    case NodeComplete(_, node) => !Blank(node)
    case Line(_, lineId) => !Blank(lineId)
    case Issued(_, command, arguments) => registry.command(command, arguments)
    case Asked(_, queryId, query, arguments) => queryId > 0 && registry.query(query, arguments)
    case Options(_, offers) => offers != [] && forall i :: 0 <= i < |offers| ==> offers[i].lineId != ""
    case Completed(_) => true
    case Cancelled(_) => true
    case Unrecognised(_) => false
    case Crashed(_) => false
  }

  function AcceptEvent(s: SessionState, registry: Registry, event: Event): (r: Result<SessionState, SessionError>) {
    if event.Crashed? then Err(RuntimeError)
    else if event.sequence != s.sequence + 1 then Err(OutOfSequence)
    else if !WellFormed(registry, event) then Err(InvalidEvent)
    else
      var next := SessionState(event.sequence, Nothing, 0, {}, s.terminal);
      match event
      case Line(_, _) => Ok(next.(awaiting := AwaitContinue))
      case Issued(_, _, _) => Ok(next.(awaiting := AwaitContinue))
      case Asked(_, queryId, _, _) => Ok(next.(awaiting := AwaitResult, queryId := queryId))
      case Options(_, offers) => Ok(next.(awaiting := AwaitSelect, options := AvailableIds(offers)))
      case Completed(_) => Ok(next.(terminal := true))
      case Cancelled(_) => Ok(next.(terminal := true))
      case _ => Ok(next)
  }

  class Session {
    const registry: Registry
    var sequence: int
    var awaiting: Awaiting
    var queryId: int
    var options: set<int>
    var terminal: bool

    ghost function Value(): (s: SessionState)
      reads this
    {
      SessionState(sequence, awaiting, queryId, options, terminal)
    }

    constructor (registry: Registry)
      ensures this.registry == registry && Value() == NEW_SESSION
    {
      this.registry := registry;
      sequence, awaiting, queryId, options, terminal := 0, Nothing, 0, {}, false;
    }

    method ValidateInput(input: Option<Input>) returns (error: Option<SessionError>)
      modifies this
      ensures match AcceptInput(old(Value()), input)
        case Ok(next) => error == None && Value() == next
        case Err(e) => error == Some(e) && Value() == old(Value())
    {
      if awaiting == Nothing {
        return if input.Some? then Some(Unrequested) else None;
      }
      if input.None? { return Some(InputRequired); }
      if input.value == Cancel { return None; }
      match awaiting {
        case AwaitContinue =>
          if input.value != Continue { return Some(WrongInput); }
        case AwaitResult =>
          if !input.value.QueryResult? || input.value.queryId != queryId { return Some(WrongInput); }
        case AwaitSelect =>
          if !input.value.Select? || input.value.optionId !in options { return Some(WrongInput); }
        case Nothing =>
      }
      awaiting, options := Nothing, {};
      return None;
    }

    /** A rejected event stops the process, so the session is over. */
    method ValidateEvent(event: Event) returns (error: Option<SessionError>)
      modifies this
      ensures match AcceptEvent(old(Value()), registry, event)
        case Ok(next) => error == None && Value() == next
        case Err(e) => error == Some(e) && terminal
    {
      if event.Crashed? {
        terminal := true;
        return Some(RuntimeError);
      }
      if event.sequence != sequence + 1 {
        terminal := true;
        return Some(OutOfSequence);
      }
      sequence := event.sequence;
      awaiting, queryId, options := Nothing, 0, {};
      if !WellFormed(registry, event) {
        terminal := true;
        return Some(InvalidEvent);
      }
      match event {
        case Line(_, _) => awaiting := AwaitContinue;
        case Issued(_, _, _) => awaiting := AwaitContinue;
        case Asked(_, id, _, _) => queryId, awaiting := id, AwaitResult;
        case Options(_, offers) => options, awaiting := AvailableIds(offers), AwaitSelect;
        case Completed(_) => terminal := true;
        case Cancelled(_) => terminal := true;
        case _ =>
      }
      return None;
    }
  }

  // ---------- The host's side ----------

  datatype Blocked = Running | OnContinue | OnResult(queryId: int, kind: ValueKind) | OnSelect(offers: seq<Offer>) | Stopped

  datatype HostState = HostState(sequence: int, queryId: int, blocked: Blocked)

  const NEW_HOST := HostState(0, 0, Running)

  /** What the dialogue machine calls back with; it breaks off at a command that cannot be parsed, or a fault of its own. */
  datatype Callback =
    | NodeStarts(node: string) | NodeEnds(node: string) | Says(lineId: string)
    | Commands(command: Command, arguments: seq<Argument>)
    | Queries(query: QueryName, arguments: seq<Argument>)
    | OffersChoice(offers: seq<Offer>)
    | Ends
    | Breaks

  /** What a compiled program can make the dialogue machine do. */
  predicate Compiled(registry: Registry, callback: Callback) {
    match callback
    case NodeStarts(node) => !Blank(node)
    case NodeEnds(node) => !Blank(node)
    case Says(lineId) => !Blank(lineId)
    case Commands(command, arguments) => registry.command(command, arguments)
    case Queries(query, arguments) => registry.query(query, arguments)
    case OffersChoice(offers) => offers != [] && forall i :: 0 <= i < |offers| ==> offers[i].lineId != ""
    case Ends => true
    case Breaks => true
  }

  datatype Emission = Emission(host: HostState, event: Event)

  function EventOf(callback: Callback, sequence: int, queryId: int): (e: Event) {
    match callback
    case NodeStarts(node) => NodeStart(sequence, node)
    case NodeEnds(node) => NodeComplete(sequence, node)
    case Says(lineId) => Line(sequence, lineId)
    case Commands(command, arguments) => Issued(sequence, command, arguments)
    case Queries(query, arguments) => Asked(sequence, queryId, query, arguments)
    case OffersChoice(offers) => Options(sequence, offers)
    case Ends => Completed(sequence)
    case Breaks => Crashed(0)
  }

  function BlockedAfter(callback: Callback, queryId: int): (b: Blocked) {
    match callback
    case NodeStarts(_) => Running
    case NodeEnds(_) => Running
    case Says(_) => OnContinue
    case Commands(_, _) => OnContinue
    case Queries(query, _) => OnResult(queryId, RegisteredKind(query).GetOr(StringKind))
    case OffersChoice(offers) => OnSelect(offers)
    case Ends => Stopped
    case Breaks => Stopped
  }

  /** On a fault, or past the event limit, the host reports an error, which carries sequence zero, and exits. */
  function Crash(h: HostState): (e: Emission) {
    Emission(h.(blocked := Stopped), Crashed(0))
  }

  /** A break is reported without being numbered. */
  function Call(h: HostState, callback: Callback): (e: Emission) {
    var queryId := if callback.Queries? then h.queryId + 1 else h.queryId;
    var counted := HostState(h.sequence + 1, queryId, h.blocked);
    if callback.Breaks? then Crash(h)
    else if counted.sequence > MAX_YIELD_EVENTS then Crash(counted)
    else Emission(counted.(blocked := BlockedAfter(callback, queryId)), EventOf(callback, counted.sequence, queryId))
  }

  /** Whether the blocked host can go on with `input`. */
  predicate Satisfies(blocked: Blocked, input: Input) {
    match blocked
    case OnContinue => input == Continue
    case OnResult(queryId, kind) => input.QueryResult? && input.queryId == queryId && input.value.Kind() == kind
    case OnSelect(offers) => input.Select? && input.optionId in OfferedIds(offers)
    case _ => false
  }

  datatype Delivery = Resumed(host: HostState) | Answered(emission: Emission)

  function Deliver(h: HostState, input: Input): (d: Delivery) {
    if input == Cancel then
      var counted := h.(sequence := h.sequence + 1, blocked := Stopped);
      if counted.sequence > MAX_YIELD_EVENTS then Answered(Crash(counted))
      else Answered(Emission(counted, Cancelled(counted.sequence)))
    else if Satisfies(h.blocked, input) then Resumed(h.(blocked := Running))
    else Answered(Crash(h))
  }

  class RuntimeHost {
    var sequence: int
    var queryId: int
    var blocked: Blocked

    ghost function Value(): (h: HostState)
      reads this
    {
      HostState(sequence, queryId, blocked)
    }

    constructor ()
      ensures Value() == NEW_HOST
    {
      sequence, queryId, blocked := 0, 0, Running;
    }

    method NextSequence() returns (ok: bool)
      modifies this`sequence
      ensures sequence == old(sequence) + 1 && ok == (sequence <= MAX_YIELD_EVENTS)
    {
      sequence := sequence + 1;
      ok := sequence <= MAX_YIELD_EVENTS;
    }

    /** One handler of the dialogue machine: count, emit, then wait if the event asks for an answer. */
    method Handle(callback: Callback) returns (event: Event)
      requires blocked == Running
      modifies this
      ensures Emission(Value(), event) == Call(old(Value()), callback)
    {
      if callback.Breaks? {
        blocked := Stopped;
        return Crashed(0);
      }
      if callback.Queries? {
        queryId := queryId + 1;
      }
      var ok := NextSequence();
      if !ok {
        blocked := Stopped;
        return Crashed(0);
      }
      event := EventOf(callback, sequence, queryId);
      match callback {
        case NodeStarts(_) =>
        case NodeEnds(_) =>
        case Says(_) => blocked := OnContinue;
        case Commands(_, _) => blocked := OnContinue;
        case Queries(query, _) => blocked := OnResult(queryId, RegisteredKind(query).GetOr(StringKind));
        case OffersChoice(offers) => blocked := OnSelect(offers);
        case Ends => blocked := Stopped;
        case Breaks => assert false;
      }
    }

    /** The input a blocked handler was waiting for. */
    method Read(input: Input) returns (event: Option<Event>)
      requires blocked != Running && blocked != Stopped
      modifies this
      ensures match Deliver(old(Value()), input)
        case Resumed(h) => event == None && Value() == h
        case Answered(e) => event == Some(e.event) && Value() == e.host
    {
      if input == Cancel {
        var ok := NextSequence();
        blocked := Stopped;
        return if ok then Some(Cancelled(sequence)) else Some(Crashed(0));
      }
      if !Satisfies(blocked, input) {
        blocked := Stopped;
        return Some(Crashed(0));
      }
      blocked := Running;
      return None;
    }
  }

  // ---------- The two together ----------

  /**
   * `unread` are emitted events the session has not read; `seen` those it has accepted.
   * `receiving` says that an exchange has sent its input and waits for an event.
   */
  datatype System = System(session: SessionState, host: HostState, unread: seq<Event>, seen: seq<Event>, receiving: bool)

  const NEW_SYSTEM := System(NEW_SESSION, NEW_HOST, [], [], false)

  datatype Move = HostMoves(callback: Callback) | Sends(input: Option<Input>) | Receives

  predicate Enabled(registry: Registry, s: System, move: Move) {
    match move
    case HostMoves(callback) => s.host.blocked == Running && Compiled(registry, callback)
    case Sends(_) => !s.receiving && !s.session.terminal
    case Receives => s.receiving && s.unread != []
  }

  function Next(registry: Registry, s: System, move: Move): (r: System)
    requires Enabled(registry, s, move)
  {
    match move
    case HostMoves(callback) =>
      var e := Call(s.host, callback);
      s.(host := e.host, unread := s.unread + [e.event])
    case Sends(input) =>
      (match AcceptInput(s.session, input)
       case Err(_) => s
       case Ok(session) =>
         var sent := s.(session := session, receiving := true);
         match input
         case None => sent
         case Some(i) =>
           match Deliver(s.host, i)
           case Resumed(host) => sent.(host := host)
           case Answered(e) => sent.(host := e.host, unread := s.unread + [e.event]))
    case Receives =>
      var event := s.unread[0];
      match AcceptEvent(s.session, registry, event)
      case Err(_) => s.(session := s.session.(terminal := true), unread := s.unread[1..], receiving := false)
      case Ok(session) => s.(session := session, unread := s.unread[1..], seen := s.seen + [event], receiving := false)
  }

  // ---------- Lockstep ----------

  /** The session waits for precisely what the host is blocked on. */
  predicate InStep(session: SessionState, blocked: Blocked) {
    match blocked
    case Running => session.awaiting == Nothing
    case OnContinue => session.awaiting == AwaitContinue
    case OnResult(queryId, _) => session.awaiting == AwaitResult && session.queryId == queryId
    case OnSelect(offers) => session.awaiting == AwaitSelect && session.options == AvailableIds(offers)
    case Stopped => false
  }

  /** The host is where emitting `event` last left it. */
  predicate Left(event: Event, blocked: Blocked) {
    match event
    case NodeStart(_, _) => blocked == Running
    case NodeComplete(_, _) => blocked == Running
    case Line(_, _) => blocked == OnContinue
    case Issued(_, _, _) => blocked == OnContinue
    case Asked(_, queryId, query, _) => RegisteredKind(query).Some? && blocked == OnResult(queryId, RegisteredKind(query).value)
    case Options(_, offers) => blocked == OnSelect(offers)
    case _ => blocked == Stopped
  }

  /** What the session waits for is what the last event it read asked for. */
  predicate Remembers(session: SessionState, last: Event) {
    match last
    case Line(_, _) => session.awaiting == AwaitContinue
    case Issued(_, _, _) => session.awaiting == AwaitContinue
    case Asked(_, queryId, _, _) => session.awaiting == AwaitResult && session.queryId == queryId
    case Options(_, offers) => session.awaiting == AwaitSelect && session.options == AvailableIds(offers)
    case _ => session.awaiting == Nothing
  }

  predicate Silent(event: Event) {
    event.NodeStart? || event.NodeComplete?
  }

  /** Unread events are consecutive and well formed; only the last may ask, end or crash. */
  ghost predicate GoodQueue(registry: Registry, sequence: int, unread: seq<Event>) {
    forall i :: 0 <= i < |unread| ==>
      && (i < |unread| - 1 ==> Silent(unread[i]))
      && (!unread[i].Crashed? ==> unread[i].sequence == sequence + 1 + i && WellFormed(registry, unread[i]))
  }

  /** How many unread events carry a sequence number. */
  function Numbered(unread: seq<Event>): (n: nat) {
    if unread != [] && unread[|unread| - 1].Crashed? then |unread| - 1 else |unread|
  }

  /** The session is open: either it has events to read, or it and the host wait for the same thing. */
  ghost predicate Live(registry: Registry, s: System) {
    && GoodQueue(registry, s.session.sequence, s.unread)
    && s.session.sequence + Numbered(s.unread) <= MAX_YIELD_EVENTS
    && s.session.sequence + Numbered(s.unread) <= s.host.sequence
    && (s.host.blocked != Stopped ==> s.host.sequence == s.session.sequence + |s.unread|)
    && (s.unread != [] ==>
          && Left(s.unread[|s.unread| - 1], s.host.blocked)
          && (s.session.awaiting == Nothing || (s.receiving && (s.unread[0].Cancelled? || s.unread[0].Crashed?))))
    && (s.unread == [] && s.receiving ==> s.host.blocked == Running && s.session.awaiting == Nothing)
    && (s.unread == [] && !s.receiving ==>
          && InStep(s.session, s.host.blocked)
          && (if s.seen == [] then s.host.blocked == Running else Left(s.seen[|s.seen| - 1], s.host.blocked)))
    && (!s.receiving && s.seen != [] ==> Remembers(s.session, s.seen[|s.seen| - 1]))
  }

  ghost predicate Lockstep(registry: Registry, s: System) {
    && s.host.queryId >= 0
    && s.session.sequence == |s.seen| <= s.host.sequence
    && |s.seen| <= MAX_YIELD_EVENTS
    && (s.host.blocked != Stopped ==> s.host.sequence <= MAX_YIELD_EVENTS)
    && (forall i :: 0 <= i < |s.seen| ==> s.seen[i].sequence == i + 1)
    && (s.session.terminal ==> !s.receiving)
    && (!s.session.terminal ==> Live(registry, s))
  }

  lemma HostMovesKeep(registry: Registry, s: System, callback: Callback)
    requires registry.Valid() && Lockstep(registry, s) && Enabled(registry, s, HostMoves(callback))
    ensures Lockstep(registry, Next(registry, s, HostMoves(callback)))
  {
    var t := Next(registry, s, HostMoves(callback));
    if !s.session.terminal && s.unread != [] {
      assert Silent(s.unread[|s.unread| - 1]);
    }
  }

  lemma SendsKeep(registry: Registry, s: System, input: Option<Input>)
    requires registry.Valid() && Lockstep(registry, s) && Enabled(registry, s, Sends(input))
    ensures Lockstep(registry, Next(registry, s, Sends(input)))
  {
  }

  lemma ReceivesKeep(registry: Registry, s: System)
    requires registry.Valid() && Lockstep(registry, s) && Enabled(registry, s, Receives)
    ensures Lockstep(registry, Next(registry, s, Receives))
  {
  }

  /** The system after a history of moves; a move that cannot happen changes nothing. */
  ghost function AfterMoves(registry: Registry, moves: seq<Move>): (s: System) {
    if moves == [] then NEW_SYSTEM
    else
      var before := AfterMoves(registry, moves[..|moves| - 1]);
      var move := moves[|moves| - 1];
      if Enabled(registry, before, move) then Next(registry, before, move) else before
  }

  /** Lockstep holds however the host's steps, the controller's inputs and its reads interleave. */
  lemma {:induction false} EveryHistoryIsInLockstep(registry: Registry, moves: seq<Move>)
    requires registry.Valid()
    ensures Lockstep(registry, AfterMoves(registry, moves))
  {
    if moves != [] {
      EveryHistoryIsInLockstep(registry, moves[..|moves| - 1]);
      var before := AfterMoves(registry, moves[..|moves| - 1]);
      if Enabled(registry, before, moves[|moves| - 1]) {
        match moves[|moves| - 1]
        case HostMoves(callback) => HostMovesKeep(registry, before, callback);
        case Sends(input) => SendsKeep(registry, before, input);
        case Receives => ReceivesKeep(registry, before);
      }
    }
  }

  /** What the controller answers by itself: it goes on after output, and answers a query with its registered type. */
  predicate Answers(event: Event, input: Option<Input>) {
    match event
    case Line(_, _) => input == Some(Continue)
    case Issued(_, _, _) => input == Some(Continue)
    case Asked(_, queryId, query, _) =>
      && input.Some? && input.value.QueryResult? && input.value.queryId == queryId
      && Some(input.value.value.Kind()) == RegisteredKind(query)
    case Options(_, offers) => input.Some? && input.value.Select? && input.value.optionId in AvailableIds(offers)
    case _ => input == None
  }

  /** The host takes `input` and goes on; when there is none it needs nothing. */
  predicate HostAccepts(h: HostState, input: Option<Input>) {
    match input
    case None => true
    case Some(i) => Deliver(h, i).Resumed?
  }

  /**
   * In every reachable state in which the session is open and idle, it waits for what the host is
   * blocked on, and an answer to the last event is accepted on both sides.
   */
  lemma AnswersAreAcceptedOnBothSides(registry: Registry, moves: seq<Move>, input: Option<Input>)
    requires registry.Valid()
    ensures
      var s := AfterMoves(registry, moves);
      !s.session.terminal && !s.receiving && s.seen != [] && Answers(s.seen[|s.seen| - 1], input) ==>
        && AcceptInput(s.session, input).Ok?
        && HostAccepts(s.host, input)
        && (s.session.awaiting != Nothing ==> s.unread == [] && InStep(s.session, s.host.blocked))
  {
    EveryHistoryIsInLockstep(registry, moves);
  }

  /** No event the host emits is refused, except its own report of a failure. */
  lemma OnlyCrashesAreRefused(registry: Registry, moves: seq<Move>)
    requires registry.Valid()
    ensures
      var s := AfterMoves(registry, moves);
      Enabled(registry, s, Receives) ==> AcceptEvent(s.session, registry, s.unread[0]).Ok? != s.unread[0].Crashed?
  {
    EveryHistoryIsInLockstep(registry, moves);
  }

  /** An exchange never waits for a host that waits in turn: there is an event to read, or the host can move. */
  lemma NoDeadlock(registry: Registry, moves: seq<Move>)
    requires registry.Valid()
    ensures
      var s := AfterMoves(registry, moves);
      s.receiving ==> s.unread != [] || s.host.blocked == Running
  {
    EveryHistoryIsInLockstep(registry, moves);
  }

  /** The accepted events are numbered one by one, and there are never more than ten thousand. */
  lemma EventsAreNumberedAndBounded(registry: Registry, moves: seq<Move>)
    requires registry.Valid()
    ensures
      var seen := AfterMoves(registry, moves).seen;
      |seen| <= MAX_YIELD_EVENTS && forall i :: 0 <= i < |seen| ==> seen[i].sequence == i + 1
  {
    EveryHistoryIsInLockstep(registry, moves);
  }

  /** An answer of the wrong type passes the session but stops the host: the session does not check types. */
  lemma WronglyTypedAnswersStopTheHost(s: SessionState, h: HostState, value: Value)
    requires h.blocked.OnResult? && InStep(s, h.blocked)
    ensures
      var input := QueryResult(h.blocked.queryId, value);
      && AcceptInput(s, Some(input)).Ok?
      && (Deliver(h, input) == Answered(Crash(h)) <==> value.Kind() != h.blocked.kind)
  {
  }

  // ---------- What each side takes ----------

  predicate IsAvailable(offers: seq<Offer>, id: int) {
    exists k :: 0 <= k < |offers| && offers[k].isAvailable && offers[k].id == id
  }

  predicate IsOffered(offers: seq<Offer>, id: int) {
    exists k :: 0 <= k < |offers| && offers[k].id == id
  }

  /** What a player may send after an event: cancel, or just what the event asks for. */
  predicate MayFollow(event: Event, input: Option<Input>) {
    match event
    case Line(_, _) => input == Some(Continue) || input == Some(Cancel)
    case Issued(_, _, _) => input == Some(Continue) || input == Some(Cancel)
    case Asked(_, queryId, _, _) =>
      input == Some(Cancel) || (input.Some? && input.value.QueryResult? && input.value.queryId == queryId)
    case Options(_, offers) =>
      input == Some(Cancel) || (input.Some? && input.value.Select? && IsAvailable(offers, input.value.optionId))
    case _ => input == None
  }

  lemma AvailableIsAvailable(offers: seq<Offer>, id: int)
    ensures id in AvailableIds(offers) <==> IsAvailable(offers, id)
    ensures id in OfferedIds(offers) <==> IsOffered(offers, id)
  {
  }

  /** The session takes an input if and only if the last event it read asks for it; before any event, none. */
  lemma InputsAcceptedIffAskedFor(registry: Registry, moves: seq<Move>, input: Option<Input>)
    requires registry.Valid()
    ensures
      var s := AfterMoves(registry, moves);
      !s.session.terminal && !s.receiving ==>
        (AcceptInput(s.session, input).Ok? <==> if s.seen == [] then input == None else MayFollow(s.seen[|s.seen| - 1], input))
  {
    EveryHistoryIsInLockstep(registry, moves);
    var s := AfterMoves(registry, moves);
    if !s.session.terminal && !s.receiving && s.seen != [] {
      var last := s.seen[|s.seen| - 1];
      if last.Options? && input.Some? && input.value.Select? {
        AvailableIsAvailable(last.offers, input.value.optionId);
      }
    }
  }

  /** What makes the blocked host go on: the answer asked for, with the declared type, or any option it offered. */
  predicate GoesOnWith(event: Event, input: Input) {
    match event
    case Line(_, _) => input == Continue
    case Issued(_, _, _) => input == Continue
    case Asked(_, queryId, query, _) =>
      input.QueryResult? && input.queryId == queryId && Some(input.value.Kind()) == RegisteredKind(query)
    case Options(_, offers) => input.Select? && IsOffered(offers, input.optionId)
    case _ => false
  }

  /** The host checks an option only against what it offered: that an unavailable one is not chosen is up to the session. */
  lemma HostGoesOnIffAnswered(registry: Registry, moves: seq<Move>, input: Input)
    requires registry.Valid()
    ensures
      var s := AfterMoves(registry, moves);
      !s.session.terminal && !s.receiving && s.session.awaiting != Nothing ==>
        && s.seen != []
        && (Deliver(s.host, input).Resumed? <==> GoesOnWith(s.seen[|s.seen| - 1], input))
  {
    EveryHistoryIsInLockstep(registry, moves);
    var s := AfterMoves(registry, moves);
    if !s.session.terminal && !s.receiving && s.session.awaiting != Nothing {
      var last := s.seen[|s.seen| - 1];
      if last.Options? && input.Select? {
        AvailableIsAvailable(last.offers, input.optionId);
      }
    }
  }

  /** No event passes that is not the next, is a call the registry does not know, or has nothing to show. */
  predicate MayPass(registry: Registry, sequence: int, event: Event) {
    && event.sequence == sequence + 1
    && (event.NodeStart? || event.NodeComplete? ==> !Blank(event.node))
    && (event.Line? ==> !Blank(event.lineId))
    && (event.Issued? ==> registry.command(event.command, event.arguments))
    && (event.Asked? ==> event.queryId > 0 && registry.query(event.query, event.arguments))
    && (event.Options? ==> event.offers != [] && forall k :: 0 <= k < |event.offers| ==> event.offers[k].lineId != "")
    && !event.Unrecognised? && !event.Crashed?
  }

  /** Whatever a host sends, the session takes just what may pass, and ends with the run. */
  lemma EventsAcceptedIffTheyMayPass(s: SessionState, registry: Registry, event: Event)
    ensures AcceptEvent(s, registry, event).Ok? <==> MayPass(registry, s.sequence, event)
    ensures AcceptEvent(s, registry, event).Ok? && !s.terminal ==>
      (AcceptEvent(s, registry, event).value.terminal <==> event.Completed? || event.Cancelled?)
  {
  }

  /** The host counts its events and, apart, its queries; only a break is not counted. */
  lemma EventsAndQueriesAreCounted(h: HostState, callback: Callback)
    ensures
      var e := Call(h, callback);
      && (!callback.Breaks? ==> e.host.sequence == h.sequence + 1)
      && e.host.queryId == h.queryId + (if callback.Queries? then 1 else 0)
      && (!e.event.Crashed? ==> e.event.sequence == h.sequence + 1 <= 10_000)
      && (e.event.Crashed? <==> callback.Breaks? || h.sequence >= 10_000)
      && (e.event.Crashed? ==> e.host.blocked == Stopped)
      && (e.event.Asked? ==> e.event.queryId == h.queryId + 1)
  {
  }
}
