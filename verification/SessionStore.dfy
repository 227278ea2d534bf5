/** The transactions as the source writes them: statement by statement, on rows that are assigned in place.

  Each method is proved to leave exactly the database that its function in Transactions computes, or, when a
  constraint or a check aborts it, the database it began with.
 */
module SessionStore {
  import opened Rows
  import opened Transactions
  import opened ConstraintSteps
  import IV = InputValidation

  datatype Result<+R> = Returned(value: R) | Raised(error: Error)

  /** What the caller learns from a transaction. */
  function Outcome<R>(tx: Tx<R>): Result<R> {
    match tx
    case Commit(_, value) => Returned(value)
    case Abort(error) => Raised(error)
  }

  function DbAfter<R>(before: SessionDb, tx: Tx<R>): SessionDb {
    match tx
    case Commit(db, _) => db
    case Abort(_) => before
  }

  class SessionStore {
    var contextVersion: nat
    var lastEventSeq: nat
    var preferences: map<nat, Preference>
    var turns: map<TurnId, Turn>
    var tasks: map<TaskId, Task>
    var toolCalls: map<CallId, ToolCall>
    var itineraries: map<nat, Itinerary>
    var outbox: seq<EventRow>

    function Snapshot(): SessionDb
      reads this
    {
      SessionDb(contextVersion, lastEventSeq, preferences, turns, tasks, toolCalls, itineraries, outbox)
    }

    ghost predicate Valid()
      reads this
    {
      Constraints(Snapshot())
    }

    /** `create_session` */
    constructor (preference: Payload)
      ensures Valid() && Snapshot() == SessionDb(
        0, 1, map[1 := Preference(Active, preference, None)], map[], map[], map[], map[],
        [EventRow(1, SessionCreated(0, 1), KeySession)])
    {
      contextVersion := 0;
      lastEventSeq := 1;
      preferences := map[1 := Preference(Active, preference, None)];
      turns, tasks, toolCalls, itineraries := map[], map[], map[], map[];
      outbox := [EventRow(1, SessionCreated(0, 1), KeySession)];
      new;
      forall c ensures Enforced(c, Snapshot()) {}
    }

    method Become(db: SessionDb)
      modifies this
      ensures Snapshot() == db
    {
      contextVersion, lastEventSeq := db.ctx, db.lastSeq;
      preferences, turns, tasks := db.preferences, db.turns, db.tasks;
      toolCalls, itineraries, outbox := db.calls, db.itineraries, db.outbox;
    }

    /** A transaction that raises leaves no trace. */
    method Rollback(saved: SessionDb)
      modifies this
      ensures Snapshot() == saved
    {
      Become(saved);
    }

    // ---------- Reads ----------

    method ActiveVersion() returns (r: Option<nat>)
      requires Valid()
      ensures r == ActivePreference(Snapshot())
    {
      assert Enforced(OneActive, Snapshot());
      if v :| v in preferences && preferences[v].status == Active {
        assert IsActive(Snapshot(), v);
        return Some(v);
      }
      return None;
    }

    method ConfirmedVersion() returns (r: Option<nat>)
      requires Valid()
      ensures r == ConfirmedItinerary(Snapshot())
    {
      assert Enforced(OneConfirmed, Snapshot());
      if v :| v in itineraries && itineraries[v].status == Confirmed {
        assert IsConfirmed(Snapshot(), v);
        return Some(v);
      }
      return None;
    }

    /** coalesce(max(sequence_no), 0) + 1 */
    method NextSequenceNo() returns (n: nat)
      ensures n == MaxSequence(turns) + 1
    {
      n := 0;
      var left := turns.Keys;
      while left != {}
        invariant left <= turns.Keys
        invariant forall t :: t in turns && t !in left ==> turns[t].sequenceNo <= n
        invariant n == 0 || exists t :: t in turns && turns[t].sequenceNo == n
        decreases |left|
      {
        var t :| t in left;
        if turns[t].sequenceNo > n {
          n := turns[t].sequenceNo;
        }
        left := left - {t};
      }
      n := n + 1;
    }

    // ---------- The outbox ----------

    method AppendEvent(body: EventBody, key: DedupeKey) returns (seqNo: nat)
      modifies this`lastEventSeq, this`outbox
      ensures Snapshot() == Append(old(Snapshot()), body, key) && seqNo == lastEventSeq
    {
      lastEventSeq := lastEventSeq + 1;
      outbox := outbox + [EventRow(lastEventSeq, body, key)];
      return lastEventSeq;
    }

    method AppendTaskEvent(body: EventBody, key: DedupeKey)
      modifies this`lastEventSeq, this`outbox
      ensures Snapshot() == AppendOnce(old(Snapshot()), body, key)
    {
      for i := 0 to |outbox|
        invariant forall j :: 0 <= j < i ==> outbox[j].key != key
      {
        if outbox[i].key == key {
          return;
        }
      }
      var _ := AppendEvent(body, key);
    }

    // ---------- Client commands ----------

    /** `finalize_text_turn`, from its row lock on. */
    method FinalizeTextTurn(id: TurnId, text: string, clientEvent: string) returns (r: Result<Finalized>)
      requires Valid()
      modifies this
      ensures Valid()
      ensures var tx := FinalizeTurn(old(Snapshot()), id, text, clientEvent);
              Snapshot() == DbAfter(old(Snapshot()), tx) && r == Outcome(tx)
    {
      var saved := Snapshot();
      var preference := ActiveVersion();
      if preference.None? {
        return Raised(NoActivePreference);
      }
      var next := NextSequenceNo();
      contextVersion := contextVersion + 1;
      if id in turns {
        Rollback(saved);
        return Raised(UniqueViolation);
      }
      turns := turns[id := Turn(next, UserText, UserFinal, contextVersion, None, text, None, None)];
      if KeyTaken(outbox, KeyTurn(clientEvent)) {
        Rollback(saved);
        return Raised(UniqueViolation);
      }
      var seqNo := AppendEvent(TurnFinalized(id, contextVersion, preference.value), KeyTurn(clientEvent));
      FinalizeTurnConstraints(saved, id, text, clientEvent);
      return Returned(Finalized(id, contextVersion, preference.value, seqNo));
    }

    /** The transaction of `update_preferences`: the guarded UPDATE, and what follows when it matched a row. */
    method UpdatePreferences(baseCtx: nat, patch: Payload, sourceTurn: Option<TurnId>, clientEvent: string)
      returns (r: Result<Option<Updated>>)
      requires Valid()
      modifies this
      ensures Valid()
      ensures var tx := UpdatePreference(old(Snapshot()), baseCtx, patch, sourceTurn, clientEvent);
              Snapshot() == DbAfter(old(Snapshot()), tx) && r == Outcome(tx)
    {
      var saved := Snapshot();
      if contextVersion != baseCtx {
        return Returned(None);
      }
      var active := ActiveVersion();
      contextVersion, lastEventSeq := contextVersion + 1, lastEventSeq + 1;
      if active.None? {
        Rollback(saved);
        return Raised(NoActivePreference);
      }
      if sourceTurn.Some? && sourceTurn.value !in turns {
        Rollback(saved);
        return Raised(SourceTurnNotInSession);
      }
      var payload := preferences[active.value].payload;
      preferences := preferences[active.value := preferences[active.value].(status := Superseded)];
      if active.value + 1 in preferences || KeyTaken(outbox, KeyPreference(clientEvent)) {
        Rollback(saved);
        return Raised(UniqueViolation);
      }
      preferences := preferences[active.value + 1 := Preference(Active, payload + patch, sourceTurn)];
      var body := PreferenceUpdated(contextVersion, active.value + 1);
      outbox := outbox + [EventRow(lastEventSeq, body, KeyPreference(clientEvent))];
      UpdatePreferenceConstraints(saved, baseCtx, patch, sourceTurn, clientEvent);
      return Returned(Some(Updated(contextVersion, active.value + 1, lastEventSeq)));
    }

    /** The loop of `register_interrupt` over the tasks its query returned. */
    method RequestCancellations(turn: TurnId, rows: seq<TaskId>, ghost db: SessionDb, ghost reason: string)
      returns (ok: bool, cancelled: seq<TaskId>)
      requires turn in db.turns && Constraints(db) && Enumerates(rows, TasksToCancel(db, turn))
      requires Snapshot() == Requested(db, turn, reason, [])
      modifies this`tasks, this`lastEventSeq, this`outbox
      ensures ok ==> cancelled == rows && Snapshot() == Requested(db, turn, reason, rows)
      ensures ok <==> forall t :: t in rows ==> !KeyTaken(db.outbox, KeyTask(t, CancelRequested))
    {
      cancelled := [];
      for i := 0 to |rows|
        invariant cancelled == rows[..i]
        invariant Snapshot() == Requested(db, turn, reason, rows[..i])
        invariant forall j :: 0 <= j < i ==> !KeyTaken(db.outbox, KeyTask(rows[j], CancelRequested))
      {
        RequestsSoFar(db, turn, reason, rows, i);
        cancelled := cancelled + [rows[i]];
        tasks := tasks[rows[i] := tasks[rows[i]].(status := CancelRequested)];
        if KeyTaken(outbox, KeyTask(rows[i], CancelRequested)) {
          return false, [];
        }
        var body := TaskMoved(rows[i], CancelRequested, Some(turn), tasks[rows[i]].ctx);
        var _ := AppendEvent(body, KeyTask(rows[i], CancelRequested));
      }
      assert rows[..|rows|] == rows;
      ok := true;
    }

    /** `register_interrupt`, from its row lock on. */
    method RegisterInterrupt(turn: TurnId, reason: string, clientEvent: string, rows: seq<TaskId>)
      returns (r: Result<InterruptResult>)
      requires Valid() && Enumerates(rows, TasksToCancel(Snapshot(), turn))
      modifies this
      ensures Valid()
      ensures var tx := Transactions.RegisterInterrupt(old(Snapshot()), turn, reason, clientEvent, rows);
              Snapshot() == DbAfter(old(Snapshot()), tx) && r == Outcome(tx)
    {
      var saved := Snapshot();
      if turn !in turns {
        return Raised(TurnNotInSession);
      }
      if turns[turn].ctx != contextVersion {
        return Raised(TurnNotCurrent);
      }
      contextVersion := contextVersion + 1;
      turns := turns[turn := turns[turn].(status := Interrupted, interruptReason := Some(reason))];
      var ok, cancelled := RequestCancellations(turn, rows, saved, reason);
      if !ok {
        Rollback(saved);
        return Raised(UniqueViolation);
      }
      RequestsKeys(saved, turn, rows);
      if KeyTaken(outbox, KeyInterrupt(clientEvent)) {
        Rollback(saved);
        return Raised(UniqueViolation);
      }
      var seqNo := AppendEvent(
        InterruptAccepted(turn, contextVersion, cancelled, turns[turn].status, reason), KeyInterrupt(clientEvent));
      RegisterInterruptConstraints(saved, turn, reason, clientEvent, rows);
      return Returned(InterruptResult(turn, contextVersion, seqNo, cancelled, turns[turn].status));
    }

    // ---------- Planning ----------

    /** `create_tasks_for_decision`; `ids` are the UUIDs its inserts draw. */
    method CreateTasksForDecision(limits: IV.Limits, packet: Packet, decision: Decision, ids: seq<TaskId>)
      returns (r: Result<seq<TaskId>>)
      requires Valid() && |ids| == |decision.plans|
      modifies this
      ensures Valid()
      ensures var tx := CreateTasks(limits, old(Snapshot()), packet, decision, ids);
              Snapshot() == DbAfter(old(Snapshot()), tx) && r == Outcome(tx)
    {
      var saved := Snapshot();
      var preference := ActiveVersion();
      var itinerary := ConfirmedVersion();
      var itineraryVersion := if itinerary.Some? then itinerary.value else 0;
      if preference.None? || contextVersion != packet.ctx || preference.value != packet.pref
         || itineraryVersion != packet.itin || decision.ctx != packet.ctx || decision.pref != packet.pref {
        return Returned([]);
      }
      var plans := decision.plans;
      var created: seq<TaskId> := [];
      assert plans[..0] == [] && ids[..0] == [];
      for i := 0 to |plans|
        invariant Valid()
        invariant CreateAll(limits, saved, packet, plans[..i], ids[..i]) == Commit(Snapshot(), created)
      {
        CreateAllStep(limits, saved, packet, plans, ids, i);
        var one := CreateTask(limits, packet, plans[i], ids[i]);
        if one.Raised? {
          CreateAllAborts(limits, saved, packet, plans, ids, i + 1);
          Rollback(saved);
          return Raised(one.error);
        }
        created := created + [one.value];
      }
      assert plans[..|plans|] == plans && ids[..|ids|] == ids;
      return Returned(created);
    }

    /** One round of its loop.  A plan whose task exists already brings that task back. */
    method CreateTask(limits: IV.Limits, packet: Packet, plan: TaskPlan, id: TaskId) returns (r: Result<TaskId>)
      requires Valid()
      modifies this
      ensures Valid()
      ensures var tx := CreateOne(limits, old(Snapshot()), packet, plan, id);
              Snapshot() == DbAfter(old(Snapshot()), tx) && r == Outcome(tx)
    {
      ghost var db := Snapshot();
      if IV.Validate(limits, InputJson(plan.input), 0).Rejected? {
        return Raised(InvalidJson);
      }
      var key := PlanKey(packet, plan);
      if t :| t in tasks && tasks[t].key == Some(key) {
        OneTaskPerKey(db, key, t);
        return Returned(t);
      }
      if id in tasks || KeyTaken(outbox, KeyTask(id, Queued)) {
        return Raised(UniqueViolation);
      }
      tasks := tasks[id := Task(Some(packet.turn), Some(packet.ctx), Some(packet.pref), Some(packet.itin),
                                plan.taskType, Some(key), plan.input, Queued, 0, None)];
      var _ := AppendEvent(
        TaskQueued(id, packet.turn, packet.ctx, packet.pref, packet.itin, plan.taskType), KeyTask(id, Queued));
      CreateOneConstraints(limits, db, packet, plan, id);
      return Returned(id);
    }

    // ---------- Running a task ----------

    method MoveTo(id: TaskId, status: TaskStatus)
      requires id in tasks
      modifies this`tasks, this`lastEventSeq, this`outbox
      ensures Snapshot() == MoveTask(old(Snapshot()), id, status)
    {
      var body := Moved(id, tasks[id], status);
      tasks := tasks[id := tasks[id].(status := status)];
      AppendTaskEvent(body, KeyTask(id, status));
    }

    /** The first transaction of `_process_task`. */
    method Claim(id: TaskId, newCall: CallId) returns (r: Result<Claim>)
      requires Valid()
      modifies this
      ensures Valid()
      ensures var tx := ClaimTask(old(Snapshot()), id, newCall);
              Snapshot() == DbAfter(old(Snapshot()), tx) && r == Outcome(tx)
    {
      var saved := Snapshot();
      if id !in tasks {
        return Returned(NotClaimed);
      }
      if tasks[id].status == CancelRequested {
        MoveTo(id, Cancelled);
        ClaimTaskConstraints(saved, id, newCall);
        return Returned(NotClaimed);
      }
      if tasks[id].status != Queued {
        return Returned(NotClaimed);
      }
      tasks := tasks[id := tasks[id].(attempt := tasks[id].attempt + 1)];
      MoveTo(id, Running);
      var task := tasks[id];
      if task.taskType != MockTravel {
        ClaimTaskConstraints(saved, id, newCall);
        return Returned(Claimed(None, task.taskType, task.input));
      }
      if task.ctx.None? || task.pref.None? {
        Rollback(saved);
        return Raised(MissingVersions);
      }
      if newCall in toolCalls || exists c :: c in toolCalls && SameRequest(toolCalls[c], id, MockTravel, task.input) {
        Rollback(saved);
        return Raised(UniqueViolation);
      }
      toolCalls := toolCalls[newCall :=
        ToolCall(id, task.ctx.value, task.pref.value, MockTravel, CallRunning, task.input, None)];
      ClaimTaskConstraints(saved, id, newCall);
      return Returned(Claimed(Some(newCall), task.taskType, task.input));
    }

    method CancelOpenToolCalls(id: TaskId)
      modifies this`toolCalls
      ensures toolCalls == CancelOpenCalls(old(toolCalls), id)
    {
      var open := set c | c in toolCalls && toolCalls[c].task == id && toolCalls[c].status in {CallPending, CallRunning};
      var left := open;
      while left != {}
        invariant left <= open && toolCalls.Keys == old(toolCalls).Keys
        invariant forall c :: c in toolCalls ==>
                    toolCalls[c] == if c in open && c !in left then old(toolCalls)[c].(status := CallCancelled)
                                    else old(toolCalls)[c]
        decreases |left|
      {
        var c :| c in left;
        toolCalls := toolCalls[c := toolCalls[c].(status := CallCancelled)];
        left := left - {c};
      }
    }

    /** `_mark_task_cancelled`: the open tool calls of the task are cancelled with it. */
    method MarkTaskCancelled(id: TaskId)
      requires Valid()
      modifies this
      ensures Valid() && Snapshot() == MarkCancelled(old(Snapshot()), id)
    {
      ghost var db := Snapshot();
      if id !in tasks || tasks[id].status != CancelRequested {
        return;
      }
      CancelOpenToolCalls(id);
      MoveTo(id, Cancelled);
      MarkCancelledConstraints(db, id);
    }

    /** `_finish_tool_call` */
    method FinishToolCall(call: Option<CallId>, status: CallStatus, output: Option<ToolOutput>)
      modifies this`toolCalls
      ensures toolCalls == FinishCall(old(toolCalls), call, status, output)
    {
      if call.None? || call.value !in toolCalls {
        return;
      }
      toolCalls := toolCalls[call.value := toolCalls[call.value].(status := status, output := output)];
    }

    method EndTask(id: TaskId, status: TaskStatus, call: Option<CallId>, callStatus: CallStatus, output: Option<ToolOutput>)
      requires id in tasks
      modifies this`tasks, this`toolCalls, this`lastEventSeq, this`outbox
      ensures Snapshot() ==
              MoveTask(old(Snapshot()).(calls := FinishCall(old(toolCalls), call, callStatus, output)), id, status)
    {
      FinishToolCall(call, callStatus, output);
      MoveTo(id, status);
    }

    /** The last transaction of `_process_task`. */
    method CommitTaskResult(id: TaskId, call: Option<CallId>, output: ToolOutput, cancelSeen: bool)
      requires Valid()
      modifies this
      ensures Valid() && Snapshot() == CommitResult(old(Snapshot()), id, call, output, cancelSeen)
    {
      CommitResultConstraints(Snapshot(), id, call, output, cancelSeen);
      if id !in tasks {
        return;
      }
      var current := IsCurrent(Snapshot(), tasks[id]);
      tasks := tasks[id := tasks[id].(result := Some(output))];
      var discard := cancelSeen || !current || tasks[id].status in {CancelRequested, Cancelled};
      if discard {
        EndTask(id, Discarded, call, CallDiscarded, Some(output));
      } else {
        EndTask(id, Succeeded, call, CallSucceeded, Some(output));
      }
    }

    /** The exception handler of `_process_task`. */
    method HandleFailure(id: TaskId, call: Option<CallId>)
      requires Valid()
      modifies this
      ensures Valid() && Snapshot() == FailTask(old(Snapshot()), id, call)
    {
      ghost var db := Snapshot();
      if id in tasks && tasks[id].status == CancelRequested {
        FinishToolCall(call, CallCancelled, None);
        MoveTo(id, Cancelled);
      } else if id in tasks && tasks[id].status !in {Cancelled, Discarded, Succeeded} {
        tasks := tasks[id := tasks[id].(status := Failed)];
        FinishToolCall(call, CallFailed, None);
        AppendTaskEvent(TaskMoved(id, Failed, None, None), KeyTask(id, Failed));
      }
      FailTaskConstraints(db, id, call);
    }

    // ---------- Composing the reply ----------

    /** `build_itinerary_content` */
    method BuildItineraryContent(destination: string, ctx: nat, rows: seq<CallId>) returns (content: Content)
      requires forall c :: c in rows ==> c in toolCalls
      ensures content == ItineraryContent(destination, ctx, toolCalls, rows)
    {
      var items: seq<Item> := [];
      for i := 0 to |rows|
        invariant forall c :: c in rows[..i] ==> c in toolCalls
        invariant items == ItemsOfCalls(toolCalls, rows[..i])
      {
        assert rows[i] in rows;
        assert rows[..i + 1][..i] == rows[..i];
        match OutputOf(toolCalls[rows[i]])
        case NoRecommendations =>
        case Recommendations(entries) =>
          var found := ItemsOf(entries, rows[i]);
          items := items + found;
      }
      assert rows[..|rows|] == rows;
      return Content(destination, items, ctx);
    }

    /** Its inner loop: entries that are not objects are skipped. */
    static method ItemsOf(entries: seq<Recommendation>, call: CallId) returns (items: seq<Item>)
      ensures items == ItemsOfEntries(entries, call)
    {
      items := [];
      for i := 0 to |entries|
        invariant items == ItemsOfEntries(entries[..i], call)
      {
        assert entries[..i + 1][..i] == entries[..i];
        match entries[i]
        case NotAnObject =>
        case Recommendation(name, category) =>
          items := items + [Item(if name == "" then UNNAMED else name, if category == "" then "activity" else category, call)];
      }
      assert entries[..|entries|] == entries;
    }

    /** The conflict loop of `compose_reply`. */
    method DiscardTasks(rows: seq<TaskId>, ghost db: SessionDb) returns (ok: bool)
      requires Snapshot() == db && Constraints(db)
      requires forall i, j :: 0 <= i < j < |rows| ==> rows[i] != rows[j]
      requires forall t :: t in rows ==> t in tasks
      modifies this`tasks, this`lastEventSeq, this`outbox
      ensures ok ==> Snapshot() == DiscardAll(db, rows)
      ensures ok <==> forall t :: t in rows ==> !KeyTaken(db.outbox, KeyTask(t, Discarded))
    {
      assert rows[..0] == [];
      for i := 0 to |rows|
        invariant Snapshot() == DiscardAll(db, rows[..i])
        invariant forall j :: 0 <= j < i ==> !KeyTaken(db.outbox, KeyTask(rows[j], Discarded))
      {
        DiscardsSoFar(db, rows, i);
        tasks := tasks[rows[i] := tasks[rows[i]].(status := Discarded)];
        if KeyTaken(outbox, KeyTask(rows[i], Discarded)) {
          return false;
        }
        var _ := AppendEvent(Moved(rows[i], tasks[rows[i]], Discarded), KeyTask(rows[i], Discarded));
      }
      assert rows[..|rows|] == rows;
      return true;
    }

    method ReportConflict(rows: seq<TaskId>) returns (r: Result<Composed>)
      requires Valid() && forall i, j :: 0 <= i < j < |rows| ==> rows[i] != rows[j]
      requires forall t :: t in rows ==> t in tasks
      modifies this
      ensures Valid()
      ensures if exists t :: t in rows && KeyTaken(old(outbox), KeyTask(t, Discarded))
              then Snapshot() == old(Snapshot()) && r == Raised(UniqueViolation)
              else Snapshot() == DiscardAll(old(Snapshot()), rows) && r == Returned(ItineraryConflict)
    {
      var saved := Snapshot();
      var ok := DiscardTasks(rows, saved);
      if !ok {
        Rollback(saved);
        return Raised(UniqueViolation);
      }
      DiscardAllConstraints(saved, rows);
      return Returned(ItineraryConflict);
    }

    /** The new version takes the place of the confirmed one, unless a constraint stands in the way. */
    method ConfirmItinerary(
      turn: TurnId, ctx: nat, pref: nat, target: nat, destination: string, taskRows: seq<TaskId>, callRows: seq<CallId>)
      returns (ok: bool)
      requires Valid() && forall c :: c in callRows ==> c in toolCalls
      modifies this`itineraries, this`outbox, this`lastEventSeq
      ensures ok <==> target + 1 !in old(itineraries) && !KeyTaken(old(outbox), KeyItinerary(turn, ctx))
      ensures var content := ItineraryContent(destination, ctx, toolCalls, callRows);
              ok ==> Snapshot() == Append(
                old(Snapshot()).(itineraries := Supersede(old(itineraries), ConfirmedItinerary(old(Snapshot())))
                                                [target + 1 := Itinerary(Confirmed, ctx, pref, content, taskRows)]),
                ItineraryConfirmed(target + 1, ctx, pref, taskRows, callRows), KeyItinerary(turn, ctx))
    {
      var confirmed := ConfirmedVersion();
      if target + 1 in itineraries {
        return false;
      }
      if confirmed.Some? {
        itineraries := itineraries[confirmed.value := itineraries[confirmed.value].(status := Replaced)];
      }
      var content := BuildItineraryContent(destination, ctx, callRows);
      itineraries := itineraries[target + 1 := Itinerary(Confirmed, ctx, pref, content, taskRows)];
      if KeyTaken(outbox, KeyItinerary(turn, ctx)) {
        return false;
      }
      var _ := AppendEvent(ItineraryConfirmed(target + 1, ctx, pref, taskRows, callRows), KeyItinerary(turn, ctx));
      return true;
    }

    /** What `compose_reply` writes when nothing stands in the way. */
    method ConfirmItineraryAndReply(
      turn: TurnId, ctx: nat, replyId: TurnId, pref: nat, target: nat, taskRows: seq<TaskId>, callRows: seq<CallId>)
      returns (r: Result<Composed>)
      requires Valid() && pref in preferences && (forall c :: c in callRows ==> c in toolCalls)
      requires !KeyTaken(outbox, KeyReply(turn, ctx))
      modifies this
      ensures Valid()
      ensures var db := old(Snapshot());
              if target + 1 in db.itineraries || replyId in db.turns || KeyTaken(db.outbox, KeyItinerary(turn, ctx))
              then Snapshot() == db && r == Raised(UniqueViolation)
              else
                var tx := ConfirmAndReply(db, turn, ctx, replyId, pref, target, taskRows, callRows);
                Snapshot() == tx.db && r == Returned(tx.value)
    {
      var saved := Snapshot();
      var results := Outputs(toolCalls, callRows);
      var destination := Destination(preferences[pref].payload, CURRENT_DESTINATION);
      var ok := ConfirmItinerary(turn, ctx, pref, target, destination, taskRows, callRows);
      if !ok {
        Rollback(saved);
        return Raised(UniqueViolation);
      }
      var context := ReplyContext(ReplyMessage(destination), ctx, pref, taskRows, results, target + 1, callRows);
      var next := NextSequenceNo();
      if replyId in turns {
        Rollback(saved);
        return Raised(UniqueViolation);
      }
      turns := turns[replyId := Turn(next, AgentReply, Completed, ctx, Some(turn), "", Some(context), None)];
      var _ := AppendEvent(ReplyCreated(replyId, turn, ctx, context), KeyReply(turn, ctx));
      ConfirmConstraints(saved, turn, ctx, replyId, pref, target, taskRows, callRows);
      return Returned(Reply(context));
    }

    method FindEvent(key: DedupeKey) returns (r: Option<EventRow>)
      requires Valid()
      ensures r == if KeyTaken(outbox, key) then Some(RowWithKey(outbox, key)) else None
    {
      assert Enforced(EventKeys, Snapshot());
      for i := 0 to |outbox|
        invariant forall j :: 0 <= j < i ==> outbox[j].key != key
      {
        if outbox[i].key == key {
          assert KeyTaken(outbox, key);
          return Some(outbox[i]);
        }
      }
      return None;
    }

    /** `compose_reply`; the row lists are what its two queries returned. */
    method ComposeReply(turn: TurnId, ctx: nat, replyId: TurnId, taskRows: seq<TaskId>, callRows: seq<CallId>)
      returns (r: Result<Composed>)
      requires Valid() && QueryRows(Snapshot(), turn, ctx, taskRows, callRows)
      modifies this
      ensures Valid()
      ensures ComposeRows(PlanCompose(old(Snapshot()), turn, ctx), taskRows, callRows)
      ensures var tx := Transactions.ComposeReply(old(Snapshot()), turn, ctx, replyId, taskRows, callRows);
              Snapshot() == DbAfter(old(Snapshot()), tx) && r == Outcome(tx)
    {
      ghost var db := Snapshot();
      PlanOfRows(db, turn, ctx, taskRows, callRows);
      if contextVersion != ctx {
        return Returned(NoReply);
      }
      var preference := ActiveVersion();
      if preference.None? {
        return Returned(NoReply);
      }
      var existing := FindEvent(KeyReply(turn, ctx));
      if existing.Some? {
        var body := existing.value.body;
        return if body.ReplyCreated? then Returned(Reply(body.context)) else Raised(MalformedEvent);
      }
      if taskRows == [] {
        return Returned(NoReply);
      }
      var targets := set t | t in taskRows :: tasks[t].itin;
      if None in targets || |targets| != 1 || |callRows| != |taskRows| {
        return Returned(NoReply);
      }
      r := ComposeFromRows(turn, ctx, replyId, preference.value, taskRows, callRows);
    }

    /** The rest of it: the rows agree, so the reply is built, unless the itinerary has moved on. */
    method ComposeFromRows(
      turn: TurnId, ctx: nat, replyId: TurnId, pref: nat, taskRows: seq<TaskId>, callRows: seq<CallId>)
      returns (r: Result<Composed>)
      requires Valid() && taskRows != [] && taskRows[0] in tasks
      requires PlanCompose(Snapshot(), turn, ctx).Build? && PlanCompose(Snapshot(), turn, ctx).pref == pref
      requires Some(PlanCompose(Snapshot(), turn, ctx).target) == tasks[taskRows[0]].itin
      requires ComposeRows(PlanCompose(Snapshot(), turn, ctx), taskRows, callRows)
      modifies this
      ensures Valid()
      ensures var tx := Transactions.ComposeReply(old(Snapshot()), turn, ctx, replyId, taskRows, callRows);
              Snapshot() == DbAfter(old(Snapshot()), tx) && r == Outcome(tx)
    {
      ghost var plan := PlanCompose(Snapshot(), turn, ctx);
      assert forall t :: t in taskRows <==> t in plan.tasks;
      assert forall c :: c in callRows <==> c in plan.calls;
      var target := tasks[taskRows[0]].itin.value;
      var confirmed := ConfirmedVersion();
      var current := if confirmed.Some? then confirmed.value else 0;
      if current != target {
        r := ReportConflict(taskRows);
        return;
      }
      r := ConfirmItineraryAndReply(turn, ctx, replyId, pref, target, taskRows, callRows);
    }

    // ---------- The agent worker ----------

    /** `build_context_packet`, all of whose reads but that of the itinerary are of rows that never change. */
    method BuildContextPacket(turn: TurnId, ctx: nat, pref: Option<nat>) returns (r: Option<Packet>)
      requires Valid()
      ensures r == BuildPacket(Snapshot(), turn, ctx, pref)
    {
      var version := pref;
      if pref.None? {
        version := ActiveVersion();
      }
      var confirmed := ConfirmedVersion();
      if turn !in turns || version.None? || version.value !in preferences {
        return None;
      }
      return Some(Packet(turn, ctx, version.value, if confirmed.Some? then confirmed.value else 0,
                         preferences[version.value].payload, turns[turn].text));
    }

    /** `process_compose_message`: it is done when there is a reply, and after an itinerary conflict it plans the turn
      anew.  `first` and `second` are what other transactions do to the database between its own. */
    method ProcessComposeMessage(
      limits: IV.Limits, turn: TurnId, ctx: nat, replyId: TurnId, newTask: TaskId, taskRows: seq<TaskId>,
      callRows: seq<CallId>, first: SessionDb -> SessionDb, second: SessionDb -> SessionDb)
      returns (r: Result<bool>)
      requires Valid() && QueryRows(Snapshot(), turn, ctx, taskRows, callRows)
      requires KeepsConstraints(first) && KeepsConstraints(second)
      modifies this
      ensures Valid()
      ensures ComposeRows(PlanCompose(old(Snapshot()), turn, ctx), taskRows, callRows)
      ensures var tx := Transactions.ComposeReply(old(Snapshot()), turn, ctx, replyId, taskRows, callRows);
              if tx.Commit? && tx.value == ItineraryConflict
              then Snapshot() == Replanned(limits, tx.db, turn, ctx, newTask, first, second) && r != Returned(true)
              else
                && Snapshot() == DbAfter(old(Snapshot()), tx)
                && r == (if tx.Abort? then Raised(tx.error) else Returned(tx.value.Reply?))
    {
      var composed := ComposeReply(turn, ctx, replyId, taskRows, callRows);
      if composed.Raised? {
        return Raised(composed.error);
      }
      if composed.value.Reply? {
        return Returned(true);
      }
      if composed.value != ItineraryConflict {
        return Returned(false);
      }
      Become(first(Snapshot()));
      var packet := BuildContextPacket(turn, ctx, None);
      if packet.None? {
        return Raised(TurnNotInSession);
      }
      Become(second(Snapshot()));
      var created := CreateTasksForDecision(limits, packet.value, Decide(packet.value), [newTask]);
      return if created.Raised? then Raised(created.error) else Returned(false);
    }
  }

  ghost predicate KeepsConstraints(others: SessionDb -> SessionDb) {
    forall db :: Constraints(db) ==> Constraints(others(db))
  }

  /** The database after the replanning that follows an itinerary conflict: the packet is built from one state of the
    database, and its tasks are created on a later one. */
  ghost function Replanned(
    limits: IV.Limits, db: SessionDb, turn: TurnId, ctx: nat, newTask: TaskId,
    first: SessionDb -> SessionDb, second: SessionDb -> SessionDb): SessionDb
  {
    match BuildPacket(first(db), turn, ctx, None)
    case None => first(db)
    case Some(packet) =>
      var later := second(first(db));
      DbAfter(later, CreateTasks(limits, later, packet, Decide(packet), [newTask]))
  }

  // ---------- The queries of the compose ----------

  /** The task query and the tool-call query have returned all their rows, each once. */
  ghost predicate QueryRows(db: SessionDb, turn: TurnId, ctx: nat, taskRows: seq<TaskId>, callRows: seq<CallId>) {
    match ActivePreference(db)
    case None => true
    case Some(pref) =>
      var tasks := SucceededTasks(db, turn, ctx, pref);
      Enumerates(taskRows, tasks) && Enumerates(callRows, SucceededCalls(db, tasks, ctx, pref))
  }

  lemma {:induction false} EnumeratedLength<T(!new)>(rows: seq<T>, s: set<T>)
    requires Enumerates(rows, s)
    ensures |rows| == |s|
    decreases |rows|
  {
    if rows == [] {
      assert s == {};
    } else {
      var n := |rows| - 1;
      assert rows == rows[..n] + [rows[n]];
      EnumeratedLength(rows[..n], s - {rows[n]});
    }
  }

  /** The set of targets has one element, and that is not None, exactly when the tasks have a common target. */
  lemma OneTarget(db: SessionDb, rows: seq<TaskId>, tasks: set<TaskId>)
    requires Enumerates(rows, tasks) && rows != [] && forall t :: t in tasks ==> t in db.tasks
    ensures var targets := set t | t in rows :: db.tasks[t].itin;
            if None in targets || |targets| != 1 then CommonTarget(db, tasks) == None
            else CommonTarget(db, tasks) == db.tasks[rows[0]].itin
  {
    var targets := set t | t in rows :: db.tasks[t].itin;
    assert rows[0] in rows && db.tasks[rows[0]].itin in targets;
    if CommonTarget(db, tasks).Some? {
      assert targets == {CommonTarget(db, tasks)};
    }
    if None !in targets && |targets| == 1 {
      assert targets == {db.tasks[rows[0]].itin} by {
        assert |targets - {db.tasks[rows[0]].itin}| == 0;
      }
      forall t | t in tasks ensures db.tasks[t].itin == db.tasks[rows[0]].itin {
        assert t in rows && db.tasks[t].itin in targets;
      }
    }
  }

  /** What the rows of the queries say about the plan. */
  lemma PlanOfRows(db: SessionDb, turn: TurnId, ctx: nat, taskRows: seq<TaskId>, callRows: seq<CallId>)
    requires Constraints(db) && QueryRows(db, turn, ctx, taskRows, callRows)
    ensures ComposeRows(PlanCompose(db, turn, ctx), taskRows, callRows)
    ensures forall t :: ActivePreference(db).Some? && t in taskRows ==> t in db.tasks
    ensures db.ctx == ctx && ActivePreference(db).Some? && !KeyTaken(db.outbox, KeyReply(turn, ctx)) ==>
              var pref := ActivePreference(db).value;
              var targets := set t | t in taskRows :: db.tasks[t].itin;
              if taskRows == [] || None in targets || |targets| != 1 || |callRows| != |taskRows|
              then PlanCompose(db, turn, ctx) == Nothing
              else PlanCompose(db, turn, ctx).Build? && PlanCompose(db, turn, ctx).pref == pref
                   && Some(PlanCompose(db, turn, ctx).target) == db.tasks[taskRows[0]].itin
  {
    if db.ctx == ctx && ActivePreference(db).Some? && !KeyTaken(db.outbox, KeyReply(turn, ctx)) {
      var pref := ActivePreference(db).value;
      var tasks := SucceededTasks(db, turn, ctx, pref);
      EnumeratedLength(taskRows, tasks);
      EnumeratedLength(callRows, SucceededCalls(db, tasks, ctx, pref));
      if taskRows != [] {
        OneTarget(db, taskRows, tasks);
      }
    }
  }

  lemma DiscardsSoFar(db: SessionDb, rows: seq<TaskId>, i: nat)
    requires i < |rows| && Constraints(db) && forall i, j :: 0 <= i < j < |rows| ==> rows[i] != rows[j]
    requires forall t :: t in rows ==> t in db.tasks
    requires forall j :: 0 <= j < i ==> !KeyTaken(db.outbox, KeyTask(rows[j], Discarded))
    ensures rows[i] in DiscardAll(db, rows[..i]).tasks
    ensures DiscardAll(db, rows[..i + 1]) == DiscardOne(DiscardAll(db, rows[..i]), rows[i])
    ensures KeyTaken(DiscardAll(db, rows[..i]).outbox, KeyTask(rows[i], Discarded))
            <==> KeyTaken(db.outbox, KeyTask(rows[i], Discarded))
  {
    assert rows[..i + 1][..i] == rows[..i];
    DiscardAllConstraints(db, rows[..i]);
    DiscardAllExtends(db, rows[..i]);
  }

  lemma OneTaskPerKey(db: SessionDb, key: IdempotencyKey, t: TaskId)
    requires Constraints(db) && t in db.tasks && db.tasks[t].key == Some(key)
    ensures forall u :: u in db.tasks && db.tasks[u].key == Some(key) ==> u == t
  {
    assert Enforced(TaskKeysUnique, db);
  }

  lemma CreateAllStep(
    limits: IV.Limits, db: SessionDb, packet: Packet, plans: seq<TaskPlan>, ids: seq<TaskId>, i: nat)
    requires |ids| == |plans| && i < |plans| && CreateAll(limits, db, packet, plans[..i], ids[..i]).Commit?
    ensures var before := CreateAll(limits, db, packet, plans[..i], ids[..i]);
            CreateAll(limits, db, packet, plans[..i + 1], ids[..i + 1])
            == match CreateOne(limits, before.db, packet, plans[i], ids[i])
               case Abort(e) => Abort(e)
               case Commit(d, id) => Commit(d, before.value + [id])
  {
    assert plans[..i + 1][..i] == plans[..i] && ids[..i + 1][..i] == ids[..i];
  }

  lemma {:induction false} CreateAllAborts(
    limits: IV.Limits, db: SessionDb, packet: Packet, plans: seq<TaskPlan>, ids: seq<TaskId>, i: nat)
    requires |ids| == |plans| && i <= |plans| && CreateAll(limits, db, packet, plans[..i], ids[..i]).Abort?
    ensures CreateAll(limits, db, packet, plans, ids) == CreateAll(limits, db, packet, plans[..i], ids[..i])
    decreases |plans| - i
  {
    if i == |plans| {
      assert plans[..i] == plans && ids[..i] == ids;
    } else {
      assert plans[..i + 1][..i] == plans[..i] && ids[..i + 1][..i] == ids[..i];
      CreateAllAborts(limits, db, packet, plans, ids, i + 1);
    }
  }

  // ---------- The loop of the interrupt ----------

  /** The database after the first rows of the loop have been worked on. */
  function Requested(db: SessionDb, turn: TurnId, reason: string, rows: seq<TaskId>): SessionDb
    requires turn in db.turns
  {
    RequestAll(db, turn, rows).(
      ctx := db.ctx + 1,
      turns := db.turns[turn := db.turns[turn].(status := Interrupted, interruptReason := Some(reason))])
  }

  lemma RequestsSoFar(db: SessionDb, turn: TurnId, reason: string, rows: seq<TaskId>, i: nat)
    requires turn in db.turns && i < |rows| && Enumerates(rows, TasksToCancel(db, turn))
    requires forall j :: 0 <= j < i ==> !KeyTaken(db.outbox, KeyTask(rows[j], CancelRequested))
    requires Constraints(db)
    ensures rows[i] in RequestAll(db, turn, rows[..i]).tasks
    ensures Requested(db, turn, reason, rows[..i + 1]) ==
            RequestOne(RequestAll(db, turn, rows[..i]), turn, rows[i]).(
              ctx := db.ctx + 1, turns := Requested(db, turn, reason, []).turns)
    ensures KeyTaken(RequestAll(db, turn, rows[..i]).outbox, KeyTask(rows[i], CancelRequested))
            <==> KeyTaken(db.outbox, KeyTask(rows[i], CancelRequested))
  {
    assert rows[..i + 1][..i] == rows[..i];
    RequestAllTurns(db, turn, rows[..i]);
    RequestAllConstraints(db, turn, rows[..i]);
    RequestAllExtends(db, turn, rows[..i]);
    assert rows[i] in rows && rows[i] in TasksToCancel(db, turn);
  }

  lemma RequestsKeys(db: SessionDb, turn: TurnId, rows: seq<TaskId>)
    requires Constraints(db) && Enumerates(rows, TasksToCancel(db, turn))
    requires forall j :: 0 <= j < |rows| ==> !KeyTaken(db.outbox, KeyTask(rows[j], CancelRequested))
    ensures forall e :: KeyTaken(RequestAll(db, turn, rows).outbox, KeyInterrupt(e)) <==> KeyTaken(db.outbox, KeyInterrupt(e))
    ensures !exists t :: t in rows && KeyTaken(db.outbox, KeyTask(t, CancelRequested))
  {
    RequestAllConstraints(db, turn, rows);
    RequestAllExtends(db, turn, rows);
  }
}
