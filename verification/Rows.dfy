/** The rows of one travel session, as backend/app/models.py declares them.

  A table whose identity column is a UUID is a map from identifiers to rows.  Preferences and itineraries are
  keyed by their version, which is unique in a session.  The outbox is the sequence of its rows in the order
  of insertion.  Wall-clock columns are not part of the model.
 */
module Rows {
  datatype Option<+T> = None | Some(value: T)

  type TurnId = nat
  type TaskId = nat
  type CallId = nat

  /** Free-form preference payload: every value is kept as its text, and as "" when it is falsy. */
  type Payload = map<string, string>

  datatype PreferenceStatus = Active | Superseded
  datatype Preference = Preference(status: PreferenceStatus, payload: Payload, sourceTurn: Option<TurnId>)

  datatype TurnKind = UserText | AgentReply
  datatype TurnStatus = UserFinal | Completed | Interrupted
  datatype Turn = Turn(
    sequenceNo: nat,
    kind: TurnKind,
    status: TurnStatus,
    ctx: nat,
    parent: Option<TurnId>,
    text: string,
    reply: Option<ReplyContext>,
    interruptReason: Option<string>)

  datatype TaskStatus = Queued | Running | CancelRequested | Cancelled | Succeeded | Failed | Discarded
  datatype TaskType = MockTravel | SmokeTest | OtherType(name: string)
  datatype TaskInput = NoInput | TravelInput(destination: string, query: string)

  /** The SHA-256 task key, taken as injective in everything that is hashed besides the session. */
  datatype IdempotencyKey = IdempotencyKey(ctx: nat, itin: nat, taskType: TaskType, input: TaskInput)

  datatype Task = Task(
    turn: Option<TurnId>,
    ctx: Option<nat>,
    pref: Option<nat>,
    itin: Option<nat>,
    taskType: TaskType,
    key: Option<IdempotencyKey>,
    input: TaskInput,
    status: TaskStatus,
    attempt: nat,
    result: Option<ToolOutput>)

  /** What a tool returned, as far as an itinerary can see it. */
  datatype ToolOutput = NoRecommendations | Recommendations(entries: seq<Recommendation>)
  datatype Recommendation = NotAnObject | Recommendation(name: string, category: string)

  datatype CallStatus = CallPending | CallRunning | CallSucceeded | CallDiscarded | CallCancelled | CallFailed
  /** The request hash is injective in the input, so the input stands for it. */
  datatype ToolCall = ToolCall(
    task: TaskId,
    ctx: nat,
    pref: nat,
    tool: TaskType,
    status: CallStatus,
    input: TaskInput,
    output: Option<ToolOutput>)

  datatype ItineraryStatus = Draft | Confirmed | Replaced
  datatype Item = Item(name: string, category: string, sourceCall: CallId)
  datatype Content = Content(destination: string, items: seq<Item>, generatedFrom: nat)
  datatype Itinerary = Itinerary(
    status: ItineraryStatus,
    ctx: nat,
    pref: nat,
    content: Content,
    sources: seq<TaskId>)

  datatype ReplyContext = ReplyContext(
    message: string,
    ctx: nat,
    pref: nat,
    sourceTasks: seq<TaskId>,
    results: seq<ToolOutput>,
    itinerary: nat,
    sourceCalls: seq<CallId>)

  /** Event payloads.  Every task lifecycle event except `task.queued` is a TaskMoved;
    `task.failed` carries neither a turn nor a context version. */
  datatype EventBody =
    | SessionCreated(ctx: nat, pref: nat)
    | TurnFinalized(turn: TurnId, ctx: nat, pref: nat)
    | PreferenceUpdated(ctx: nat, pref: nat)
    | InterruptAccepted(turn: TurnId, ctx: nat, cancelled: seq<TaskId>, turnStatus: TurnStatus, reason: string)
    | TaskQueued(task: TaskId, turn: TurnId, ctx: nat, pref: nat, itin: nat, taskType: TaskType)
    | TaskMoved(task: TaskId, to: TaskStatus, taskTurn: Option<TurnId>, taskCtx: Option<nat>)
    | ItineraryConfirmed(version: nat, ctx: nat, pref: nat, sources: seq<TaskId>, calls: seq<CallId>)
    | ReplyCreated(turn: TurnId, parent: TurnId, ctx: nat, context: ReplyContext)

  datatype DedupeKey =
    | KeySession
    | KeyTurn(clientEvent: string)
    | KeyPreference(clientEvent: string)
    | KeyInterrupt(clientEvent: string)
    | KeyTask(task: TaskId, status: TaskStatus)
    | KeyItinerary(turn: TurnId, ctx: nat)
    | KeyReply(turn: TurnId, ctx: nat)

  datatype EventRow = EventRow(seqNo: nat, body: EventBody, key: DedupeKey)

  /** Everything the database holds about one session. */
  datatype SessionDb = SessionDb(
    ctx: nat,
    lastSeq: nat,
    preferences: map<nat, Preference>,
    turns: map<TurnId, Turn>,
    tasks: map<TaskId, Task>,
    calls: map<CallId, ToolCall>,
    itineraries: map<nat, Itinerary>,
    outbox: seq<EventRow>)

  /** `rows` lists the members of `s`, each once, in the order in which the database returned them. */
  ghost predicate Enumerates<T(!new)>(rows: seq<T>, s: set<T>) {
    && (forall x :: x in rows <==> x in s)
    && (forall i, j :: 0 <= i < j < |rows| ==> rows[i] != rows[j])
  }

  predicate KeyTaken(outbox: seq<EventRow>, key: DedupeKey) {
    exists i :: 0 <= i < |outbox| && outbox[i].key == key
  }

  predicate IsActive(db: SessionDb, version: nat) {
    version in db.preferences && db.preferences[version].status == Active
  }

  predicate IsConfirmed(db: SessionDb, version: nat) {
    version in db.itineraries && db.itineraries[version].status == Confirmed
  }

  datatype Constraint = EventNumbers | EventKeys | TurnNumbers | TaskKeysUnique | Requests | OneActive | OneConfirmed

  /** The unique and partial-unique constraints of the tables; event numbers moreover stay within last_event_seq. */
  ghost predicate Enforced(c: Constraint, db: SessionDb) {
    match c
    case EventNumbers =>
      && (forall i :: 0 <= i < |db.outbox| ==> db.outbox[i].seqNo <= db.lastSeq)
      && (forall i, j :: 0 <= i < j < |db.outbox| ==> db.outbox[i].seqNo != db.outbox[j].seqNo)
    case EventKeys => forall i, j :: 0 <= i < j < |db.outbox| ==> db.outbox[i].key != db.outbox[j].key
    case TurnNumbers =>
      forall a, b :: a in db.turns && b in db.turns && a != b ==> db.turns[a].sequenceNo != db.turns[b].sequenceNo
    case TaskKeysUnique =>
      forall a, b :: a in db.tasks && b in db.tasks && a != b && db.tasks[a].key.Some? ==> db.tasks[a].key != db.tasks[b].key
    case Requests =>
      forall a, b :: a in db.calls && b in db.calls && a != b ==> !SameRow(db.calls[a], db.calls[b])
    case OneActive => forall a, b :: IsActive(db, a) && IsActive(db, b) ==> a == b
    case OneConfirmed => forall a, b :: IsConfirmed(db, a) && IsConfirmed(db, b) ==> a == b
  }

  predicate SameRow(a: ToolCall, b: ToolCall) {
    a.task == b.task && a.tool == b.tool && a.input == b.input
  }

  /** What the database itself enforces. */
  ghost predicate Constraints(db: SessionDb) {
    forall c :: Enforced(c, db)
  }
}
