/** Whole runs of one session: API requests, agent workers, task workers, publishers and Redis, interleaved at will.

  A run is a sequence of steps.  A locked transaction is one step; every read outside the lock is a step of its own.
  A step that is not enabled leaves the world as it is, so every sequence of steps is a run.  Task and compose
  messages may arrive at any time, for any identifiers, any number of times, which covers every order of publishing
  and redelivery.  A plan message carries a packet, so it must have been built from a row of the log.
 */
module Runs {
  import opened Rows
  import opened Transactions
  import IV = InputValidation

  // ---------- Client commands ----------

  datatype Command =
    | Finalize(clientEvent: string, text: string)
    | Patch(clientEvent: string, baseCtx: nat, patch: Payload, sourceTurn: Option<TurnId>)
    | Interrupt(clientEvent: string, turn: TurnId, reason: string)

  datatype Response =
    | FinalizedAs(finalized: Finalized)
    | UpdatedAs(updated: Updated)
    | InterruptedAs(interrupted: InterruptResult)
    | Conflict(ctx: nat, pref: nat)
    | Refused(error: Error)

  /** Where a request stands between its reads and its transaction. */
  datatype Phase = Fresh | Unseen | Missed | MissedAt(ctx: nat) | Conflicting(ctx: nat) | Done(response: Response)
  datatype Request = Request(command: Command, phase: Phase)

  function CommandKey(c: Command): DedupeKey {
    match c
    case Finalize(e, _) => KeyTurn(e)
    case Patch(e, _, _, _) => KeyPreference(e)
    case Interrupt(e, _, _) => KeyInterrupt(e)
  }

  /** What a duplicate is told, from the row of the command that took effect. */
  function ResponseOf(row: EventRow): Response {
    match row.body
    case TurnFinalized(t, c, p) => FinalizedAs(Finalized(t, c, p, row.seqNo))
    case PreferenceUpdated(c, p) => UpdatedAs(Updated(c, p, row.seqNo))
    case InterruptAccepted(t, c, cancelled, status, _) => InterruptedAs(InterruptResult(t, c, row.seqNo, cancelled, status))
    case _ => Refused(MalformedEvent)
  }

  // ---------- Task runners ----------

  datatype Pc = CheckKey | CheckRow | Marking | Executing | RecheckKey | RecheckRow | Committing | Failing
  datatype Runner = Runner(
    task: TaskId, call: Option<CallId>, taskType: TaskType, pc: Pc, output: Option<ToolOutput>, cancelSeen: bool)

  type RunId = nat
  type RequestId = nat

  datatype World = World(
    limits: IV.Limits,
    db: SessionDb,
    packets: set<Packet>,            // contents of every plan message built so far
    cancelKeys: set<TaskId>,         // cancel marks present in Redis
    runners: map<RunId, Runner>,
    requests: map<RequestId, Request>,
    conflicts: set<(TurnId, nat)>,   // compose messages that ended in an itinerary conflict
    patches: seq<Payload>)           // history: the initial preference and every accepted patch

  datatype Step =
    | Submit(req: RequestId, command: Command)
    | DedupeCheck(req: RequestId)
    | Execute(req: RequestId, newTurn: TurnId, rows: seq<TaskId>)
    | ReadContext(req: RequestId)
    | DedupeRecheck(req: RequestId)
    | ReadPreference(req: RequestId)
    | PublishTurn(index: nat)
    | PlanMessage(packet: Packet, newTask: TaskId)
    | ComposeMessage(turn: TurnId, ctx: nat, newTurn: TurnId, taskRows: seq<TaskId>, callRows: seq<CallId>)
    | Replan(turn: TurnId, ctx: nat)
    | WriteCancelKey(index: nat, task: TaskId)
    | LoseCancelKey(task: TaskId)
    | TaskMessage(task: TaskId, run: RunId, newCall: CallId)
    | ReadKey(run: RunId, seen: bool)
    | ReadRow(run: RunId)
    | Mark(run: RunId, acknowledged: bool)
    | RunTool(run: RunId, output: ToolOutput)
    | CommitRun(run: RunId, seen: bool, acknowledged: bool)
    | Raise(run: RunId)
    | Fail(run: RunId)
    | Crash(run: RunId)

  /** `create_session` */
  function NewSession(preference: Payload): SessionDb {
    SessionDb(0, 1, map[1 := Preference(Active, preference, None)], map[], map[], map[], map[],
              [EventRow(1, SessionCreated(0, 1), KeySession)])
  }

  function Init(limits: IV.Limits, preference: Payload): World {
    World(limits, NewSession(preference), {}, {}, map[], map[], {}, [preference])
  }

  function Answer(w: World, req: RequestId, phase: Phase): World
    requires req in w.requests
  {
    w.(requests := w.requests[req := w.requests[req].(phase := phase)])
  }

  /** The locked transaction of a request that did not find its key. */
  ghost function ExecuteCommand(w: World, req: RequestId, newTurn: TurnId, rows: seq<TaskId>): World
    requires req in w.requests
  {
    match w.requests[req].command
    case Finalize(e, text) =>
      (match FinalizeTurn(w.db, newTurn, text, e)
       case Abort(error) => Answer(w, req, Done(Refused(error)))
       case Commit(db', r) => Answer(w.(db := db'), req, Done(FinalizedAs(r))))
    case Patch(e, baseCtx, patch, source) =>
      (match UpdatePreference(w.db, baseCtx, patch, source, e)
       case Abort(error) => Answer(w, req, Done(Refused(error)))
       case Commit(db', None) => Answer(w, req, Missed)
       case Commit(db', Some(r)) => Answer(w.(db := db', patches := w.patches + [patch]), req, Done(UpdatedAs(r))))
    case Interrupt(e, turn, reason) =>
      if !Enumerates(rows, TasksToCancel(w.db, turn)) then w
      else
        (match RegisterInterrupt(w.db, turn, reason, e, rows)
         case Abort(error) => Answer(w, req, Done(Refused(error)))
         case Commit(db', r) => Answer(w.(db := db'), req, Done(InterruptedAs(r))))
  }

  ghost function DoRequest(w: World, s: Step): World {
    match s
    case Submit(req, command) =>
      if req in w.requests then w else w.(requests := w.requests[req := Request(command, Fresh)])
    case DedupeCheck(req) =>
      if req !in w.requests || w.requests[req].phase != Fresh then w
      else if KeyTaken(w.db.outbox, CommandKey(w.requests[req].command)) then
        Answer(w, req, Done(ResponseOf(RowWithKey(w.db.outbox, CommandKey(w.requests[req].command)))))
      else Answer(w, req, Unseen)
    case Execute(req, newTurn, rows) =>
      if req !in w.requests || w.requests[req].phase != Unseen then w else ExecuteCommand(w, req, newTurn, rows)
    case ReadContext(req) =>
      if req !in w.requests || w.requests[req].phase != Missed then w else Answer(w, req, MissedAt(w.db.ctx))
    case DedupeRecheck(req) =>
      if req !in w.requests || !w.requests[req].phase.MissedAt? then w
      else if KeyTaken(w.db.outbox, CommandKey(w.requests[req].command)) then
        Answer(w, req, Done(ResponseOf(RowWithKey(w.db.outbox, CommandKey(w.requests[req].command)))))
      else Answer(w, req, Conflicting(w.requests[req].phase.ctx))
    case ReadPreference(req) =>
      if req !in w.requests || !w.requests[req].phase.Conflicting? then w
      else
        var pref := match ActivePreference(w.db) case None => 0 case Some(p) => p;
        Answer(w, req, Done(Conflict(w.requests[req].phase.ctx, pref)))
    case _ => w
  }

  ghost function DoMessage(w: World, s: Step): World {
    match s
    case PublishTurn(index) =>
      if index >= |w.db.outbox| || !w.db.outbox[index].body.TurnFinalized? then w
      else
        var e := w.db.outbox[index].body;
        (match BuildPacket(w.db, e.turn, e.ctx, Some(e.pref))
         case None => w
         case Some(packet) => w.(packets := w.packets + {packet}))
    case PlanMessage(packet, newTask) =>
      if packet !in w.packets then w
      else
        (match CreateTasks(w.limits, w.db, packet, Decide(packet), [newTask])
         case Abort(_) => w
         case Commit(db', _) => w.(db := db'))
    case ComposeMessage(turn, ctx, newTurn, taskRows, callRows) =>
      if !ComposeRows(PlanCompose(w.db, turn, ctx), taskRows, callRows) then w
      else
        (match ComposeReply(w.db, turn, ctx, newTurn, taskRows, callRows)
         case Abort(_) => w
         case Commit(db', r) =>
           w.(db := db', conflicts := if r == ItineraryConflict then w.conflicts + {(turn, ctx)} else w.conflicts))
    case Replan(turn, ctx) =>
      if (turn, ctx) !in w.conflicts then w
      else
        (match BuildPacket(w.db, turn, ctx, None)
         case None => w
         case Some(packet) => w.(packets := w.packets + {packet}))
    case WriteCancelKey(index, task) =>
      if index < |w.db.outbox| && w.db.outbox[index].body.InterruptAccepted? && task in w.db.outbox[index].body.cancelled
      then w.(cancelKeys := w.cancelKeys + {task}) else w
    case LoseCancelKey(task) => w.(cancelKeys := w.cancelKeys - {task})
    case TaskMessage(task, run, newCall) =>
      if run in w.runners then w
      else
        (match ClaimTask(w.db, task, newCall)
         case Abort(_) => w
         case Commit(db', NotClaimed) => w.(db := db')
         case Commit(db', Claimed(call, taskType, _)) =>
           w.(db := db', runners := w.runners[run := Runner(task, call, taskType, CheckKey, None, false)]))
    case _ => w
  }

  function Goto(w: World, run: RunId, pc: Pc): World
    requires run in w.runners
  {
    w.(runners := w.runners[run := w.runners[run].(pc := pc)])
  }

  function Leave(w: World, run: RunId): World {
    w.(runners := w.runners - {run})
  }

  function DoRunner(w: World, s: Step): World {
    match s
    case ReadKey(run, seen) =>
      // a read may fail and report nothing, but it never reports a mark that is not there
      if run !in w.runners || (seen && w.runners[run].task !in w.cancelKeys) then w
      else
        var r := w.runners[run];
        if r.pc == CheckKey then Goto(w, run, if seen then Marking else CheckRow)
        else if r.pc == RecheckKey then
          if seen then w.(runners := w.runners[run := r.(pc := Committing, cancelSeen := true)])
          else Goto(w, run, RecheckRow)
        else w
    case ReadRow(run) =>
      if run !in w.runners then w
      else
        var r := w.runners[run];
        var requested := r.task in w.db.tasks && w.db.tasks[r.task].status == CancelRequested;
        if r.pc == CheckRow then Goto(w, run, if requested then Marking else Executing)
        else if r.pc == RecheckRow then
          w.(runners := w.runners[run := r.(pc := Committing, cancelSeen := requested)])
        else w
    case Mark(run, acknowledged) =>
      if run !in w.runners || w.runners[run].pc != Marking then w
      else
        var w' := w.(db := MarkCancelled(w.db, w.runners[run].task));
        if acknowledged then Leave(w', run) else Goto(w', run, Failing)
    case RunTool(run, output) =>
      if run !in w.runners || w.runners[run].pc != Executing || w.runners[run].taskType.OtherType? then w
      else w.(runners := w.runners[run := w.runners[run].(pc := RecheckKey, output := Some(output))])
    case CommitRun(run, seen, acknowledged) =>
      if run !in w.runners || w.runners[run].pc != Committing || w.runners[run].output.None?
         || (seen && w.runners[run].task !in w.cancelKeys) then w
      else
        var r := w.runners[run];
        var w' := w.(db := CommitResult(w.db, r.task, r.call, r.output.value, r.cancelSeen || seen));
        if acknowledged then Leave(w', run) else Goto(w', run, Failing)
    case Raise(run) =>
      if run !in w.runners then w else Goto(w, run, Failing)
    case Fail(run) =>
      if run !in w.runners || w.runners[run].pc != Failing then w
      else Leave(w.(db := FailTask(w.db, w.runners[run].task, w.runners[run].call)), run)
    case Crash(run) => Leave(w, run)
    case _ => w
  }

  ghost function Do(w: World, s: Step): World {
    match s
    case Submit(_, _) => DoRequest(w, s)
    case DedupeCheck(_) => DoRequest(w, s)
    case Execute(_, _, _) => DoRequest(w, s)
    case ReadContext(_) => DoRequest(w, s)
    case DedupeRecheck(_) => DoRequest(w, s)
    case ReadPreference(_) => DoRequest(w, s)
    case PublishTurn(_) => DoMessage(w, s)
    case PlanMessage(_, _) => DoMessage(w, s)
    case ComposeMessage(_, _, _, _, _) => DoMessage(w, s)
    case Replan(_, _) => DoMessage(w, s)
    case WriteCancelKey(_, _) => DoMessage(w, s)
    case LoseCancelKey(_) => DoMessage(w, s)
    case TaskMessage(_, _, _) => DoMessage(w, s)
    case _ => DoRunner(w, s)
  }

  /** The world after the first k steps of a run. */
  ghost function After(w: World, steps: seq<Step>): World {
    if steps == [] then w else Do(After(w, steps[..|steps| - 1]), steps[|steps| - 1])
  }

  datatype Run = Run(limits: IV.Limits, preference: Payload, steps: seq<Step>)

  /** The first n steps of the run lead to `w`. */
  ghost predicate LeadsTo(r: Run, n: nat, w: World) {
    n <= |r.steps| && w == After(Init(r.limits, r.preference), r.steps[..n])
  }

  ghost predicate EndsIn(r: Run, w: World) {
    forall n :: n == |r.steps| ==> LeadsTo(r, n, w)
  }

  /** Some run, from some new session, ends in `w`. */
  ghost predicate Reachable(w: World) {
    exists r :: EndsIn(r, w)
  }
}
