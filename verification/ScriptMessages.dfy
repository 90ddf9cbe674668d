/** Messages between a script runtime and its controller (internal/scriptruntime/protocol.go). */
module ScriptMessages {
  import opened Common

  /** A textual value together with the finite number that parsing it yields, if any. */
  datatype Text = Text(raw: string, number: Option<real>)

  datatype ValueKind = StringKind | NumberKind | BoolKind

  datatype Argument = Argument(kind: ValueKind, isStatic: bool, value: Option<Text>)

  datatype Value = StringValue(text: string) | NumberValue(number: real) | BoolValue(truth: bool) {
    function Kind(): ValueKind {
      match this
      case StringValue(_) => StringKind
      case NumberValue(_) => NumberKind
      case BoolValue(_) => BoolKind
    }
  }

  datatype Command =
    | SetFlag | ClearFlag | SetProgress | IncrementProgress
    | GiveItem | RemoveItem | GrantYen | SpendYen
    | CompleteCommand | PassTrigger
    | Presentation(name: string)
    | UnknownCommand(name: string)

  /** The commands whose effects are staged and committed. */
  predicate Durable(command: Command) {
    command in {SetFlag, ClearFlag, SetProgress, IncrementProgress, GiveItem, RemoveItem, GrantYen, SpendYen}
  }

  datatype QueryName =
    | FlagSet | ProgressValue | HasItem | YenQuery | ActorPresent | InScene | GameHour
    | GameDateOnOrAfter | RandomInteger | ActorInBounds
    | ActorState | ObjectExists | ActivityResult
    | UnknownQuery(name: string)

  datatype Offer = Offer(id: int, lineId: string, isAvailable: bool)

  datatype Event =
    | NodeStart(sequence: int, node: string)
    | NodeComplete(sequence: int, node: string)
    | Line(sequence: int, lineId: string)
    | Issued(sequence: int, command: Command, arguments: seq<Argument>)
    | Asked(sequence: int, queryId: int, query: QueryName, arguments: seq<Argument>)
    | Options(sequence: int, offers: seq<Offer>)
    | Completed(sequence: int)
    | Cancelled(sequence: int)
    | Unrecognised(sequence: int)
    | Crashed(sequence: int)

  datatype Input =
    | Continue
    | Cancel
    | Select(optionId: int)
    | QueryResult(queryId: int, value: Value)

  /** A durable command waiting for the commit, in the order it was issued. */
  datatype Effect = Effect(sequence: int, command: Command, arguments: seq<Argument>)
}
