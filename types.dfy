/** The records of the progression save-state (types.ts). */
module Types {

  /** A value that may be absent: the source's `T | null`. */
  datatype Option<+T> = None | Some(value: T)

  /** One logged urge-event; `day` and `timestamp` are stamped on submission. */
  datatype LogEntry = LogEntry(
    day: int,
    feeling: string,
    trigger: string,
    succeeded: bool,
    timestamp: int)

  /** The whole save-state. `currentDay` and `level` are plain numbers in the source,
      so their ranges are invariants (Progression.Consistent), not types. */
  datatype GameState = GameState(
    currentDay: int,
    level: int,
    awarenessPoints: int,
    controlPoints: int,
    energy: int,
    logs: seq<LogEntry>,
    lastSuccessTimestamp: Option<int>,
    aiInsight: Option<string>,
    insightRequested: bool)
}
