/** The entities of the delivery engine: the rows of its tables, its configuration, and the outcomes of scripts. */
module Types {

  datatype Option<+T> = None | Some(value: T)

  type SourceId = nat
  type ActionId = nat
  type DeliveryId = nat
  type ThreadId = nat

  /** JSON documents and script bodies are compared as opaque values. */
  type Json = string
  type Script = string

  datatype Mode = Record | Active

  datatype DeliveryStatus = Pending | Processing | Completed | Failed | Recorded

  datatype AttemptStatus = AttemptPending | AttemptSuccess | AttemptFailed

  datatype Source = Source(mode: Mode, script: Option<Script>)

  datatype Action = Action(source: SourceId, active: bool, transform: Option<Script>)

  datatype Delivery = Delivery(
    source: SourceId, idem: string, headers: Json, payload: Json, status: DeliveryStatus, receivedAt: int,
    transformedPayload: Option<Json>, transformedHeaders: Option<Json>)

  /** The unique key of a row of the attempts table. */
  datatype Key = Key(delivery: DeliveryId, action: ActionId, number: int)

  datatype Attempt = Attempt(status: AttemptStatus, nextRetryAt: Option<int>)

  /** A row of the attempts table as a query returns it. */
  datatype AttemptRow = AttemptRow(key: Key, attempt: Attempt)

  /** A stream entry; `force` marks one that a forward request published. */
  datatype Message = Message(delivery: DeliveryId, force: bool)

  /** What one dispatcher call was given and returned. */
  datatype Event = Event(key: Key, success: bool, payload: Json, headers: Json)

  /** An action as the fan-out loop sees it: read once, before the loop. */
  datatype Todo = Todo(id: ActionId, transform: Option<Script>)

  datatype SourceOutcome = ScriptError | Dropped | Transformed(payload: Json, headers: Json, kept: seq<ActionId>)

  datatype ActionOutcome = Skip | Send(payload: Json, headers: Json)

  /** What is sent: a payload with its headers. */
  datatype Content = Content(payload: Json, headers: Json)

  /** Scripts are deterministic functions of their input. */
  datatype Config = Config(
    maxRetries: int, baseDelay: int,
    runSource: (Script, Json, Json, seq<ActionId>) -> SourceOutcome,
    runAction: (Script, Json, Json) -> ActionOutcome)

  /** An absent script and an empty one are the same: nothing runs. */
  predicate HasScript(script: Option<Script>) {
    script.Some? && script.value != ""
  }

  /** What an action's own transform makes of a payload and headers. */
  function Transform(c: Config, script: Option<Script>, payload: Json, headers: Json): ActionOutcome {
    if HasScript(script) then c.runAction(script.value, payload, headers) else Send(payload, headers)
  }

  /** The action's own script runs on this payload and these headers, and skips them. */
  predicate SkippedBy(c: Config, script: Option<Script>, payload: Json, headers: Json) {
    script.Some? && script.value != "" && c.runAction(script.value, payload, headers) == Skip
  }

  function TransformContent(c: Config, script: Option<Script>, content: Content): ActionOutcome {
    Transform(c, script, content.payload, content.headers)
  }

  function Received(row: Delivery): Content {
    Content(row.payload, row.headers)
  }

  /** The payload a retry rebuilds from a delivery row. */
  function StoredPayload(row: Delivery): Json {
    if row.transformedPayload.Some? then row.transformedPayload.value else row.payload
  }

  function StoredHeaders(row: Delivery): Json {
    if row.transformedHeaders.Some? then row.transformedHeaders.value else row.headers
  }

  function StoredContent(row: Delivery): Content {
    Content(StoredPayload(row), StoredHeaders(row))
  }

  /** Both came from the same source with the same content. */
  ghost predicate SameContent(row: Delivery, snap: Delivery) {
    row.source == snap.source && row.payload == snap.payload && row.headers == snap.headers
  }

  function IdSet(ids: seq<ActionId>): set<ActionId> {
    set a | a in ids
  }

  function Succ(k: Key): Key {
    Key(k.delivery, k.action, k.number + 1)
  }

  function Prev(k: Key): Key {
    Key(k.delivery, k.action, k.number - 1)
  }

  function Max(x: int, y: int): int {
    if x < y then y else x
  }

  lemma SubsetSize<T>(a: set<T>, b: set<T>)
    requires a <= b
    ensures |a| <= |b|
  {
    assert b == a + (b - a);
  }
}
