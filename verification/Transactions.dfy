/** Every transaction that takes the session row lock, as a function from the database to the database.

  Each function is one `begin()` block of the source: it runs alone, and either commits a new database or
  aborts and leaves the old one.  Row identifiers a step invents (UUIDs) and the order in which a query without
  ORDER BY returns its rows are parameters.  Two uniqueness checks are not repeated here: (session, event_seq) and
  (session, sequence_no) are always one more than the largest value in use.
 */
module Transactions {
  import opened Rows
  import IV = InputValidation

  datatype Error =
    | NoActivePreference
    | TurnNotInSession
    | TurnNotCurrent
    | SourceTurnNotInSession
    | UniqueViolation
    | MissingVersions
    | InvalidJson
    | MalformedEvent

  datatype Tx<+R> = Commit(db: SessionDb, value: R) | Abort(error: Error)

  // ---------- Queries ----------

  ghost function ActivePreference(db: SessionDb): (r: Option<nat>)
    ensures r.Some? ==> IsActive(db, r.value)
    ensures r.None? ==> forall v :: !IsActive(db, v)
  {
    if exists v :: IsActive(db, v) then var v :| IsActive(db, v); Some(v) else None
  }

  ghost function ConfirmedItinerary(db: SessionDb): (r: Option<nat>)
    ensures r.Some? ==> IsConfirmed(db, r.value)
    ensures r.None? ==> forall v :: !IsConfirmed(db, v)
  {
    if exists v :: IsConfirmed(db, v) then var v :| IsConfirmed(db, v); Some(v) else None
  }

  ghost function CurrentItinerary(db: SessionDb): nat {
    match ConfirmedItinerary(db) case None => 0 case Some(v) => v
  }

  /** coalesce(max(sequence_no), 0) */
  ghost function MaxSequence(turns: map<TurnId, Turn>): (m: nat)
    ensures forall t :: t in turns ==> turns[t].sequenceNo <= m
    ensures m == 0 || exists t :: t in turns && turns[t].sequenceNo == m
    decreases |turns|
  {
    if turns == map[] then 0
    else
      var t :| t in turns;
      assert forall u :: u in turns ==> u == t || (u in turns - {t} && (turns - {t})[u] == turns[u]);
      var rest := MaxSequence(turns - {t});
      if rest < turns[t].sequenceNo then turns[t].sequenceNo else rest
  }

  ghost function RowWithKey(outbox: seq<EventRow>, key: DedupeKey): (r: EventRow)
    requires KeyTaken(outbox, key)
    ensures r in outbox && r.key == key
  {
    var i :| 0 <= i < |outbox| && outbox[i].key == key;
    outbox[i]
  }

  // ---------- Appending to the outbox ----------

  function Append(db: SessionDb, body: EventBody, key: DedupeKey): SessionDb {
    db.(lastSeq := db.lastSeq + 1, outbox := db.outbox + [EventRow(db.lastSeq + 1, body, key)])
  }

  /** `_append_task_event`: an event whose key is already there is skipped. */
  function AppendOnce(db: SessionDb, body: EventBody, key: DedupeKey): SessionDb {
    if KeyTaken(db.outbox, key) then db else Append(db, body, key)
  }

  function Moved(id: TaskId, task: Task, to: TaskStatus): EventBody {
    TaskMoved(id, to, task.turn, task.ctx)
  }

  /** The task takes status `to` and its lifecycle event is appended. */
  function MoveTask(db: SessionDb, id: TaskId, to: TaskStatus): SessionDb
    requires id in db.tasks
  {
    AppendOnce(
      db.(tasks := db.tasks[id := db.tasks[id].(status := to)]),
      Moved(id, db.tasks[id], to),
      KeyTask(id, to))
  }

  // ---------- Client commands ----------

  datatype Finalized = Finalized(turn: TurnId, ctx: nat, pref: nat, seqNo: nat)

  ghost function FinalizeTurn(db: SessionDb, id: TurnId, text: string, clientEvent: string): Tx<Finalized> {
    match ActivePreference(db)
    case None => Abort(NoActivePreference)
    case Some(pref) =>
      if id in db.turns || KeyTaken(db.outbox, KeyTurn(clientEvent)) then Abort(UniqueViolation)
      else
        var turn := Turn(MaxSequence(db.turns) + 1, UserText, UserFinal, db.ctx + 1, None, text, None, None);
        Commit(
          Append(db.(ctx := db.ctx + 1, turns := db.turns[id := turn]),
                 TurnFinalized(id, db.ctx + 1, pref), KeyTurn(clientEvent)),
          Finalized(id, db.ctx + 1, pref, db.lastSeq + 1))
  }

  datatype Updated = Updated(ctx: nat, pref: nat, seqNo: nat)

  /** The guarded UPDATE and what follows it in the same transaction; `None` is "no row matched". */
  ghost function UpdatePreference(
    db: SessionDb, baseCtx: nat, patch: Payload, sourceTurn: Option<TurnId>, clientEvent: string): Tx<Option<Updated>>
  {
    if db.ctx != baseCtx then Commit(db, None)
    else
      match ActivePreference(db)
      case None => Abort(NoActivePreference)
      case Some(pref) =>
        if sourceTurn.Some? && sourceTurn.value !in db.turns then Abort(SourceTurnNotInSession)
        else if pref + 1 in db.preferences || KeyTaken(db.outbox, KeyPreference(clientEvent)) then Abort(UniqueViolation)
        else
          var active := db.preferences[pref];
          var preferences := db.preferences[pref := active.(status := Superseded)]
                                           [pref + 1 := Preference(Active, active.payload + patch, sourceTurn)];
          Commit(
            Append(db.(ctx := db.ctx + 1, preferences := preferences),
                   PreferenceUpdated(db.ctx + 1, pref + 1), KeyPreference(clientEvent)),
            Some(Updated(db.ctx + 1, pref + 1, db.lastSeq + 1)))
  }

  datatype InterruptResult = InterruptResult(
    turn: TurnId, ctx: nat, seqNo: nat, cancelled: seq<TaskId>, turnStatus: TurnStatus)

  predicate Interruptible(task: Task, turn: TurnId, ctx: nat) {
    task.turn == Some(turn) && task.ctx == Some(ctx) && task.status in {Queued, Running}
  }

  function TasksToCancel(db: SessionDb, turn: TurnId): set<TaskId> {
    set t | t in db.tasks && Interruptible(db.tasks[t], turn, db.ctx)
  }

  /** One round of the loop: the task becomes `cancel_requested` and its event is appended. */
  function RequestOne(db: SessionDb, turn: TurnId, id: TaskId): SessionDb {
    if id !in db.tasks then db
    else
      Append(db.(tasks := db.tasks[id := db.tasks[id].(status := CancelRequested)]),
             TaskMoved(id, CancelRequested, Some(turn), db.tasks[id].ctx), KeyTask(id, CancelRequested))
  }

  function RequestAll(db: SessionDb, turn: TurnId, rows: seq<TaskId>): SessionDb {
    if rows == [] then db
    else RequestOne(RequestAll(db, turn, rows[..|rows| - 1]), turn, rows[|rows| - 1])
  }

  ghost function RegisterInterrupt(
    db: SessionDb, turn: TurnId, reason: string, clientEvent: string, rows: seq<TaskId>): Tx<InterruptResult>
    requires Enumerates(rows, TasksToCancel(db, turn))
  {
    if turn !in db.turns then Abort(TurnNotInSession)
    else if db.turns[turn].ctx != db.ctx then Abort(TurnNotCurrent)
    else if KeyTaken(db.outbox, KeyInterrupt(clientEvent))
         || exists t :: t in rows && KeyTaken(db.outbox, KeyTask(t, CancelRequested)) then Abort(UniqueViolation)
    else
      var requested := RequestAll(db, turn, rows);
      var interrupted := db.turns[turn].(status := Interrupted, interruptReason := Some(reason));
      Commit(
        Append(requested.(ctx := db.ctx + 1, turns := db.turns[turn := interrupted]),
               InterruptAccepted(turn, db.ctx + 1, rows, Interrupted, reason), KeyInterrupt(clientEvent)),
        InterruptResult(turn, db.ctx + 1, requested.lastSeq + 1, rows, Interrupted))
  }

  // ---------- Planning ----------

  const UNSPECIFIED_DESTINATION := "未指定目的地"
  const CURRENT_DESTINATION := "当前目的地"

  function Destination(payload: Payload, default: string): string {
    if "destination" in payload && payload["destination"] != "" then payload["destination"] else default
  }

  datatype Packet = Packet(turn: TurnId, ctx: nat, pref: nat, itin: nat, preference: Payload, text: string)
  datatype TaskPlan = TaskPlan(taskType: TaskType, input: TaskInput)
  datatype Decision = Decision(ctx: nat, pref: nat, plans: seq<TaskPlan>)

  /** `build_context_packet`.  A turn, a preference version or an active preference that is missing is a LookupError. */
  ghost function BuildPacket(db: SessionDb, turn: TurnId, ctx: nat, pref: Option<nat>): Option<Packet> {
    var version := if pref.Some? then pref else ActivePreference(db);
    if turn !in db.turns || version.None? || version.value !in db.preferences then None
    else
      Some(Packet(turn, ctx, version.value, CurrentItinerary(db),
                  db.preferences[version.value].payload, db.turns[turn].text))
  }

  function PlannedInput(preference: Payload, text: string): TaskInput {
    TravelInput(Destination(preference, UNSPECIFIED_DESTINATION), text)
  }

  function Decide(packet: Packet): Decision {
    Decision(packet.ctx, packet.pref, [TaskPlan(MockTravel, PlannedInput(packet.preference, packet.text))])
  }

  function InputJson(input: TaskInput): IV.Json {
    match input
    case NoInput => IV.JObject([])
    case TravelInput(destination, query) =>
      IV.JObject([
        IV.Entry(IV.TextKey("destination"), IV.JString(destination)),
        IV.Entry(IV.TextKey("query"), IV.JString(query)),
        IV.Entry(IV.TextKey("mock"), IV.JBool(true))])
  }

  function PlanKey(packet: Packet, plan: TaskPlan): IdempotencyKey {
    IdempotencyKey(packet.ctx, packet.itin, plan.taskType, plan.input)
  }

  ghost predicate PacketIsCurrent(db: SessionDb, packet: Packet, decision: Decision) {
    && ActivePreference(db) == Some(packet.pref)
    && db.ctx == packet.ctx
    && CurrentItinerary(db) == packet.itin
    && decision.ctx == packet.ctx
    && decision.pref == packet.pref
  }

  /** `create_tasks_for_decision`; `ids` are the UUIDs its inserts would draw, one for each plan. */
  ghost function CreateTasks(
    limits: IV.Limits, db: SessionDb, packet: Packet, decision: Decision, ids: seq<TaskId>): Tx<seq<TaskId>>
    requires |ids| == |decision.plans|
  {
    if !PacketIsCurrent(db, packet, decision) then Commit(db, [])
    else CreateAll(limits, db, packet, decision.plans, ids)
  }

  ghost function CreateAll(
    limits: IV.Limits, db: SessionDb, packet: Packet, plans: seq<TaskPlan>, ids: seq<TaskId>): Tx<seq<TaskId>>
    requires |ids| == |plans|
    decreases |plans|
  {
    if plans == [] then Commit(db, [])
    else
      var n := |plans| - 1;
      match CreateAll(limits, db, packet, plans[..n], ids[..n])
      case Abort(e) => Abort(e)
      case Commit(db1, created) =>
        match CreateOne(limits, db1, packet, plans[n], ids[n])
        case Abort(e) => Abort(e)
        case Commit(db2, id) => Commit(db2, created + [id])
  }

  ghost predicate HasTaskKey(db: SessionDb, key: IdempotencyKey) {
    exists t :: t in db.tasks && db.tasks[t].key == Some(key)
  }

  /** One plan: reuse the task that already carries its key, or insert a queued one with its event. */
  ghost function CreateOne(
    limits: IV.Limits, db: SessionDb, packet: Packet, plan: TaskPlan, id: TaskId): (r: Tx<TaskId>)
    ensures r.Commit? ==> r.value in r.db.tasks && r.db.tasks[r.value].key == Some(PlanKey(packet, plan))
  {
    var key := PlanKey(packet, plan);
    if IV.Validate(limits, InputJson(plan.input), 0).Rejected? then Abort(InvalidJson)
    else if HasTaskKey(db, key) then
      var t :| t in db.tasks && db.tasks[t].key == Some(key);
      Commit(db, t)
    else if id in db.tasks || KeyTaken(db.outbox, KeyTask(id, Queued)) then Abort(UniqueViolation)
    else
      var task := Task(Some(packet.turn), Some(packet.ctx), Some(packet.pref), Some(packet.itin),
                       plan.taskType, Some(key), plan.input, Queued, 0, None);
      Commit(
        Append(db.(tasks := db.tasks[id := task]),
               TaskQueued(id, packet.turn, packet.ctx, packet.pref, packet.itin, plan.taskType),
               KeyTask(id, Queued)),
        id)
  }

  // ---------- Running a task ----------

  datatype Claim = NotClaimed | Claimed(call: Option<CallId>, taskType: TaskType, input: TaskInput)

  predicate SameRequest(call: ToolCall, task: TaskId, tool: TaskType, input: TaskInput) {
    call.task == task && call.tool == tool && call.input == input
  }

  /** The first transaction of `_process_task`. */
  ghost function ClaimTask(db: SessionDb, id: TaskId, newCall: CallId): Tx<Claim> {
    if id !in db.tasks then Commit(db, NotClaimed)
    else if db.tasks[id].status == CancelRequested then Commit(MoveTask(db, id, Cancelled), NotClaimed)
    else if db.tasks[id].status != Queued then Commit(db, NotClaimed)
    else
      var task := db.tasks[id];
      var attempted := db.(tasks := db.tasks[id := task.(attempt := task.attempt + 1)]);
      var running := MoveTask(attempted, id, Running);
      if task.taskType != MockTravel then Commit(running, Claimed(None, task.taskType, task.input))
      else if task.ctx.None? || task.pref.None? then Abort(MissingVersions)
      else if newCall in db.calls
           || exists c :: c in db.calls && SameRequest(db.calls[c], id, MockTravel, task.input) then Abort(UniqueViolation)
      else
        var call := ToolCall(id, task.ctx.value, task.pref.value, MockTravel, CallRunning, task.input, None);
        Commit(running.(calls := db.calls[newCall := call]), Claimed(Some(newCall), task.taskType, task.input))
  }

  function CancelOpenCalls(calls: map<CallId, ToolCall>, id: TaskId): (r: map<CallId, ToolCall>)
    ensures r.Keys == calls.Keys
  {
    map c | c in calls ::
      if calls[c].task == id && calls[c].status in {CallPending, CallRunning}
      then calls[c].(status := CallCancelled) else calls[c]
  }

  /** `_mark_task_cancelled` */
  function MarkCancelled(db: SessionDb, id: TaskId): SessionDb {
    if id !in db.tasks || db.tasks[id].status != CancelRequested then db
    else MoveTask(db.(calls := CancelOpenCalls(db.calls, id)), id, Cancelled)
  }

  /** `_finish_tool_call` */
  function FinishCall(
    calls: map<CallId, ToolCall>, call: Option<CallId>, status: CallStatus, output: Option<ToolOutput>)
    : map<CallId, ToolCall>
  {
    if call.None? || call.value !in calls then calls
    else calls[call.value := calls[call.value].(status := status, output := output)]
  }

  /** `_task_context_is_current` */
  predicate IsCurrent(db: SessionDb, task: Task) {
    || task.ctx.None?
    || (&& db.ctx == task.ctx.value
        && (|| task.pref.None?
            || (task.pref.value in db.preferences && db.preferences[task.pref.value].status == Active)))
  }

  /** The four-way test before a result is accepted. */
  predicate MustDiscard(db: SessionDb, task: Task, cancelSeen: bool) {
    cancelSeen || !IsCurrent(db, task) || task.status in {CancelRequested, Cancelled}
  }

  /** The last transaction of `_process_task`; `cancelSeen` is what the reads of the cancel marks returned. */
  function CommitResult(
    db: SessionDb, id: TaskId, call: Option<CallId>, output: ToolOutput, cancelSeen: bool): SessionDb
  {
    if id !in db.tasks then db
    else
      var task := db.tasks[id];
      var stored := db.(tasks := db.tasks[id := task.(result := Some(output))]);
      if MustDiscard(db, task, cancelSeen) then
        MoveTask(stored.(calls := FinishCall(db.calls, call, CallDiscarded, Some(output))), id, Discarded)
      else
        MoveTask(stored.(calls := FinishCall(db.calls, call, CallSucceeded, Some(output))), id, Succeeded)
  }

  /** The exception handler of `_process_task`. */
  function FailTask(db: SessionDb, id: TaskId, call: Option<CallId>): SessionDb {
    if id !in db.tasks then db
    else if db.tasks[id].status == CancelRequested then
      MoveTask(db.(calls := FinishCall(db.calls, call, CallCancelled, None)), id, Cancelled)
    else if db.tasks[id].status in {Cancelled, Discarded, Succeeded} then db
    else
      AppendOnce(
        db.(calls := FinishCall(db.calls, call, CallFailed, None),
            tasks := db.tasks[id := db.tasks[id].(status := Failed)]),
        TaskMoved(id, Failed, None, None), KeyTask(id, Failed))
  }

  // ---------- Composing the reply ----------

  datatype Composed = NoReply | Reply(context: ReplyContext) | ItineraryConflict

  function SucceededTasks(db: SessionDb, turn: TurnId, ctx: nat, pref: nat): set<TaskId> {
    set t | t in db.tasks
          && db.tasks[t].turn == Some(turn) && db.tasks[t].ctx == Some(ctx) && db.tasks[t].pref == Some(pref)
          && db.tasks[t].status == Succeeded
  }

  function SucceededCalls(db: SessionDb, tasks: set<TaskId>, ctx: nat, pref: nat): set<CallId> {
    set c | c in db.calls
          && db.calls[c].task in tasks && db.calls[c].ctx == ctx && db.calls[c].pref == pref
          && db.calls[c].status == CallSucceeded
  }

  ghost function CommonTarget(db: SessionDb, tasks: set<TaskId>): (r: Option<nat>)
    requires forall t :: t in tasks ==> t in db.tasks
    ensures r.Some? ==> forall t :: t in tasks ==> db.tasks[t].itin == r
  {
    if exists v: nat :: forall t :: t in tasks ==> db.tasks[t].itin == Some(v) then
      var v: nat :| forall t :: t in tasks ==> db.tasks[t].itin == Some(v); Some(v)
    else None
  }

  function OutputOf(call: ToolCall): ToolOutput {
    if call.output.Some? then call.output.value else NoRecommendations
  }

  const UNNAMED := "未命名推荐"

  function ItemsOfEntries(entries: seq<Recommendation>, call: CallId): seq<Item> {
    if entries == [] then []
    else
      var last := entries[|entries| - 1];
      ItemsOfEntries(entries[..|entries| - 1], call)
      + if last.NotAnObject? then []
        else [Item(if last.name == "" then UNNAMED else last.name,
                   if last.category == "" then "activity" else last.category, call)]
  }

  function ItemsOfCalls(calls: map<CallId, ToolCall>, rows: seq<CallId>): seq<Item>
    requires forall c :: c in rows ==> c in calls
  {
    if rows == [] then []
    else
      var n := |rows| - 1;
      assert rows[n] in rows && forall c :: c in rows[..n] ==> c in rows;
      ItemsOfCalls(calls, rows[..n])
      + match OutputOf(calls[rows[n]])
        case NoRecommendations => []
        case Recommendations(entries) => ItemsOfEntries(entries, rows[n])
  }

  function ItineraryContent(destination: string, ctx: nat, calls: map<CallId, ToolCall>, rows: seq<CallId>): Content
    requires forall c :: c in rows ==> c in calls
  {
    Content(destination, ItemsOfCalls(calls, rows), ctx)
  }

  function ReplyMessage(destination: string): string {
    "已根据当前偏好整理 " + destination + " 的版本化旅行建议。"
  }

  /** One round of the conflict loop: the succeeded task is discarded after all. */
  function DiscardOne(db: SessionDb, id: TaskId): SessionDb {
    if id !in db.tasks then db
    else
      Append(db.(tasks := db.tasks[id := db.tasks[id].(status := Discarded)]),
             Moved(id, db.tasks[id], Discarded), KeyTask(id, Discarded))
  }

  function DiscardAll(db: SessionDb, rows: seq<TaskId>): SessionDb {
    if rows == [] then db else DiscardOne(DiscardAll(db, rows[..|rows| - 1]), rows[|rows| - 1])
  }

  /** What `compose_reply` finds out before it writes anything. */
  datatype ComposePlan =
    | Nothing
    | Existing(row: EventRow)
    | Build(pref: nat, tasks: set<TaskId>, calls: set<CallId>, target: nat)

  ghost function PlanCompose(db: SessionDb, turn: TurnId, ctx: nat): ComposePlan {
    if db.ctx != ctx then Nothing
    else
      match ActivePreference(db)
      case None => Nothing
      case Some(pref) =>
        if KeyTaken(db.outbox, KeyReply(turn, ctx)) then Existing(RowWithKey(db.outbox, KeyReply(turn, ctx)))
        else
          var tasks := SucceededTasks(db, turn, ctx, pref);
          if tasks == {} then Nothing
          else
            match CommonTarget(db, tasks)
            case None => Nothing
            case Some(target) =>
              var calls := SucceededCalls(db, tasks, ctx, pref);
              if |calls| != |tasks| then Nothing else Build(pref, tasks, calls, target)
  }

  ghost predicate ComposeRows(plan: ComposePlan, taskRows: seq<TaskId>, callRows: seq<CallId>) {
    plan.Build? ==> Enumerates(taskRows, plan.tasks) && Enumerates(callRows, plan.calls)
  }

  /** `compose_reply`: at most one reply and one new itinerary version for (turn, ctx). */
  ghost function ComposeReply(
    db: SessionDb, turn: TurnId, ctx: nat, replyId: TurnId, taskRows: seq<TaskId>, callRows: seq<CallId>): Tx<Composed>
    requires ComposeRows(PlanCompose(db, turn, ctx), taskRows, callRows)
  {
    match PlanCompose(db, turn, ctx)
    case Nothing => Commit(db, NoReply)
    case Existing(row) => if row.body.ReplyCreated? then Commit(db, Reply(row.body.context)) else Abort(MalformedEvent)
    case Build(pref, tasks, calls, target) =>
      if CurrentItinerary(db) != target then
        if exists t :: t in taskRows && KeyTaken(db.outbox, KeyTask(t, Discarded)) then Abort(UniqueViolation)
        else
          Commit(DiscardAll(db, taskRows), ItineraryConflict)
      else if target + 1 in db.itineraries || replyId in db.turns
           || KeyTaken(db.outbox, KeyItinerary(turn, ctx)) then Abort(UniqueViolation)
      else ConfirmAndReply(db, turn, ctx, replyId, pref, target, taskRows, callRows)
  }

  function Supersede(itineraries: map<nat, Itinerary>, confirmed: Option<nat>): map<nat, Itinerary> {
    if confirmed.None? || confirmed.value !in itineraries then itineraries
    else itineraries[confirmed.value := itineraries[confirmed.value].(status := Replaced)]
  }

  ghost function ConfirmAndReply(
    db: SessionDb, turn: TurnId, ctx: nat, replyId: TurnId, pref: nat, target: nat,
    taskRows: seq<TaskId>, callRows: seq<CallId>): Tx<Composed>
    requires pref in db.preferences
    requires forall c :: c in callRows ==> c in db.calls
  {
    var destination := Destination(db.preferences[pref].payload, CURRENT_DESTINATION);
    var content := ItineraryContent(destination, ctx, db.calls, callRows);
    var itineraries := Supersede(db.itineraries, ConfirmedItinerary(db))
                       [target + 1 := Itinerary(Confirmed, ctx, pref, content, taskRows)];
    var context := ReplyContext(
      ReplyMessage(destination), ctx, pref, taskRows, Outputs(db.calls, callRows), target + 1, callRows);
    var reply := Turn(MaxSequence(db.turns) + 1, AgentReply, Completed, ctx, Some(turn), "", Some(context), None);
    var confirmed := Append(db.(itineraries := itineraries),
                            ItineraryConfirmed(target + 1, ctx, pref, taskRows, callRows), KeyItinerary(turn, ctx));
    Commit(
      Append(confirmed.(turns := db.turns[replyId := reply]),
             ReplyCreated(replyId, turn, ctx, context), KeyReply(turn, ctx)),
      Reply(context))
  }

  function Outputs(calls: map<CallId, ToolCall>, rows: seq<CallId>): (r: seq<ToolOutput>)
    requires forall c :: c in rows ==> c in calls
  {
    seq(|rows|, i requires 0 <= i < |rows| => OutputOf(calls[rows[i]]))
  }
}
