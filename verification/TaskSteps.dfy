/** Planning, claiming, finishing, failing and cancelling a task keep the invariant. */
module TaskSteps {
  import opened Rows
  import opened Transactions
  import opened History
  import opened Refinement
  import IV = InputValidation

  // ---------- Planning ----------

  predicate IsAnnounced(outbox: seq<EventRow>, packet: Packet) {
    exists i :: 0 <= i < |outbox| && outbox[i].body == TurnFinalized(packet.turn, packet.ctx, packet.pref)
  }

  /** What a packet says about its turn was copied from rows that never change. */
  ghost predicate PacketOk(db: SessionDb, packet: Packet) {
    && IsAnnounced(db.outbox, packet)
    && packet.turn in db.turns && db.turns[packet.turn].kind == UserText
    && packet.ctx == db.turns[packet.turn].ctx
    && packet.pref in db.preferences
    && packet.preference == db.preferences[packet.pref].payload
    && packet.text == db.turns[packet.turn].text
  }

  lemma TaskAdded(tasks: map<TaskId, Task>, views: map<TaskId, TaskView>, id: TaskId, task: Task, view: TaskView)
    requires TasksAgree(tasks, views) && TaskMatches(task, view)
    ensures TasksAgree(tasks[id := task], views[id := view])
  {}

  lemma CallsUnderNewTask(tasks: map<TaskId, Task>, calls: map<CallId, ToolCall>, id: TaskId, task: Task)
    requires CallsOk(tasks, calls) && id !in tasks && task.status == Queued
    ensures CallsOk(tasks[id := task], calls)
  {}

  ghost predicate NewTaskStep(db: SessionDb, db': SessionDb, id: TaskId, task: Task, row: EventRow) {
    && id !in db.tasks
    && db' == db.(tasks := db.tasks[id := task], lastSeq := db.lastSeq + 1, outbox := db.outbox + [row])
    && row.seqNo == db.lastSeq + 1 && row.body.TaskQueued? && row.body.task == id
    && KeyFits(row) && !KeyTaken(db.outbox, row.key) && Allowed(ViewOf(db), row.body)
    && TaskMatches(task, Apply(ViewOf(db), row.body).tasks[id]) && task.status == Queued
    && TaskRowOk(task, db.turns, db.preferences)
  }

  lemma NewTaskLog(db: SessionDb, db': SessionDb, id: TaskId, task: Task, row: EventRow)
    requires Inv(db) && NewTaskStep(db, db', id, task, row)
    ensures ViewOf(db') == Apply(ViewOf(db), row.body)
    ensures Holds(Log, db') && Holds(TaskKeys, db') && Holds(ReplyKeys, db') && Holds(Replies, db') && Holds(Counters, db')
  {
    LogAspects(db);
    AppendRow(db, db', row);
  }

  lemma NewTaskRows(db: SessionDb, db': SessionDb, id: TaskId, task: Task, row: EventRow)
    requires Holds(Tasks, db) && Holds(TaskRows, db) && Holds(Calls, db) && NewTaskStep(db, db', id, task, row)
    requires ViewOf(db') == Apply(ViewOf(db), row.body)
    ensures Holds(Tasks, db') && Holds(TaskRows, db') && Holds(Calls, db')
  {
    TaskAdded(db.tasks, ViewOf(db).tasks, id, task, ViewOf(db').tasks[id]);
    TaskRowReplaced(db.tasks, db.turns, db.preferences, id, task);
    CallsUnderNewTask(db.tasks, db.calls, id, task);
  }

  lemma NewTaskAspect(a: Aspect, db: SessionDb, db': SessionDb, id: TaskId, task: Task, row: EventRow)
    requires Inv(db) && NewTaskStep(db, db', id, task, row)
    ensures Holds(a, db')
  {
    NewTaskLog(db, db', id, task, row);
    match a
    case Tasks => NewTaskRows(db, db', id, task, row);
    case TaskRows => NewTaskRows(db, db', id, task, row);
    case Calls => NewTaskRows(db, db', id, task, row);
    case Preferences => Frame(a, db, db');
    case Itineraries => Frame(a, db, db');
    case Turns => Frame(a, db, db');
    case Contents => Frame(a, db, db');
    case _ =>
  }

  /** Two tasks of one turn that aim at the same itinerary version have the same key. */
  lemma SameTargetSameKey(db: SessionDb, packet: Packet, other: TaskId)
    requires Inv(db) && PacketOk(db, packet) && db.ctx == packet.ctx && ViewOf(db).pref == packet.pref
    requires other in db.tasks && db.tasks[other].turn == Some(packet.turn) && db.tasks[other].itin == Some(packet.itin)
    ensures db.tasks[other].key == Some(PlanKey(packet, Decide(packet).plans[0]))
  {
    var v := ViewOf(db);
    InvIsSound(db);
    assert Holds(Tasks, db) && Holds(Turns, db) && Holds(TaskRows, db) && Holds(Counters, db);
    assert TaskRowOk(db.tasks[other], db.turns, db.preferences);
    assert TaskOk(v, v.tasks[other]);
    assert v.turns[packet.turn].ctx == v.ctx;
  }

  function QueuedBody(packet: Packet, id: TaskId): EventBody {
    TaskQueued(id, packet.turn, packet.ctx, packet.pref, packet.itin, MockTravel)
  }

  /** A current packet whose task does not exist yet may queue one: no other task of its turn has its target. */
  lemma QueuedAllowed(db: SessionDb, packet: Packet, id: TaskId)
    requires Inv(db) && PacketOk(db, packet) && PacketIsCurrent(db, packet, Decide(packet)) && id !in db.tasks
    requires !HasTaskKey(db, PlanKey(packet, Decide(packet).plans[0]))
    ensures Allowed(ViewOf(db), QueuedBody(packet, id))
  {
    var v := ViewOf(db);
    ActiveIsLatest(db);
    ConfirmedIsLatest(db);
    LogAspects(db);
    assert Holds(Tasks, db) && Holds(Turns, db);
    forall other | other in v.tasks && v.tasks[other].turn == packet.turn
      ensures v.tasks[other].itin != packet.itin
    {
      assert TaskMatches(db.tasks[other], v.tasks[other]);
      if v.tasks[other].itin == packet.itin {
        SameTargetSameKey(db, packet, other);
      }
    }
  }

  lemma CreateOneKeeps(limits: IV.Limits, db: SessionDb, packet: Packet, id: TaskId)
    requires Inv(db) && PacketOk(db, packet) && PacketIsCurrent(db, packet, Decide(packet))
    requires CreateOne(limits, db, packet, Decide(packet).plans[0], id).Commit?
    ensures Inv(CreateOne(limits, db, packet, Decide(packet).plans[0], id).db)
  {
    var db' := CreateOne(limits, db, packet, Decide(packet).plans[0], id).db;
    if !HasTaskKey(db, PlanKey(packet, Decide(packet).plans[0])) {
      QueuedAllowed(db, packet, id);
      var row := EventRow(db.lastSeq + 1, QueuedBody(packet, id), KeyTask(id, Queued));
      forall a ensures Holds(a, db') {
        NewTaskAspect(a, db, db', id, db'.tasks[id], row);
      }
    }
  }

  // ---------- One lifecycle event ----------

  lemma {:induction false} ItemsKept(calls: map<CallId, ToolCall>, calls': map<CallId, ToolCall>, rows: seq<CallId>)
    requires forall c :: c in rows ==> c in calls && c in calls' && calls'[c] == calls[c]
    ensures ItemsOfCalls(calls', rows) == ItemsOfCalls(calls, rows)
    decreases |rows|
  {
    if rows != [] {
      assert forall c :: c in rows[..|rows| - 1] ==> c in rows;
      ItemsKept(calls, calls', rows[..|rows| - 1]);
      assert rows[|rows| - 1] in rows;
    }
  }

  lemma ContentKept(
    link: Link, content: Content, preferences: map<nat, Preference>,
    calls: map<CallId, ToolCall>, calls': map<CallId, ToolCall>)
    requires ContentOk(link, content, calls, preferences) && CallsKept(calls, calls')
    ensures ContentOk(link, content, calls', preferences)
  {
    ItemsKept(calls, calls', link.calls);
  }

  lemma ContentKeptAt(
    itineraries: map<nat, Itinerary>, chain: seq<Link>, preferences: map<nat, Preference>,
    calls: map<CallId, ToolCall>, calls': map<CallId, ToolCall>, x: nat)
    requires ContentsOk(itineraries, chain, calls, preferences) && CallsKept(calls, calls') && x in itineraries
    ensures 1 <= x <= |chain| && ContentOk(chain[x - 1], itineraries[x].content, calls', preferences)
  {
    ContentKept(chain[x - 1], itineraries[x].content, preferences, calls, calls');
  }

  lemma ContentsKept(
    itineraries: map<nat, Itinerary>, chain: seq<Link>, preferences: map<nat, Preference>,
    calls: map<CallId, ToolCall>, calls': map<CallId, ToolCall>)
    requires ContentsOk(itineraries, chain, calls, preferences) && CallsKept(calls, calls')
    ensures ContentsOk(itineraries, chain, calls', preferences)
  {
    forall x | x in itineraries
      ensures 1 <= x <= |chain| && ContentOk(chain[x - 1], itineraries[x].content, calls', preferences)
    {
      ContentKeptAt(itineraries, chain, preferences, calls, calls', x);
    }
  }

  /** `db'` is `db` after one lifecycle event of the task, with the new status in the table. */
  ghost predicate LifecycleStep(db: SessionDb, db': SessionDb, id: TaskId, row: EventRow) {
    && id in db.tasks && id in db'.tasks
    && db' == db.(tasks := db.tasks[id := db'.tasks[id]], calls := db'.calls, lastSeq := db.lastSeq + 1,
                  outbox := db.outbox + [row])
    && (var task := db'.tasks[id];
        && task == db.tasks[id].(status := task.status, attempt := task.attempt, result := task.result)
        && row.body.TaskMoved? && row.body.task == id && row.body.to == task.status
        && task.status != CancelRequested)
    && row.seqNo == db.lastSeq + 1 && row.key == KeyTask(id, row.body.to)
  }

  /** The log has grown by rows that are not interrupts. */
  ghost predicate NoNewInterrupts(outbox: seq<EventRow>, outbox': seq<EventRow>) {
    outbox <= outbox' && forall i :: |outbox| <= i < |outbox'| ==> !outbox'[i].body.InterruptAccepted?
  }

  /** A step that touches one task, its tool calls and the end of the log. */
  ghost predicate OneTaskStep(db: SessionDb, db': SessionDb, id: TaskId) {
    && id in db.tasks && id in db'.tasks
    && db' == db.(tasks := db.tasks[id := db'.tasks[id]], calls := db'.calls, lastSeq := db'.lastSeq, outbox := db'.outbox)
    && (var task, task' := db.tasks[id], db'.tasks[id];
        task' == task.(status := task'.status, attempt := task'.attempt, result := task'.result)
        && task.attempt <= task'.attempt)
    && NoNewInterrupts(db.outbox, db'.outbox)
    && (forall c :: c in db.calls ==> c in db'.calls && db'.calls[c].task == db.calls[c].task)
  }

  lemma LifecycleIsOneTask(db: SessionDb, db': SessionDb, id: TaskId, row: EventRow)
    requires LifecycleStep(db, db', id, row) && db.tasks[id].attempt <= db'.tasks[id].attempt
    requires forall c :: c in db.calls ==> c in db'.calls && db'.calls[c].task == db.calls[c].task
    ensures OneTaskStep(db, db', id)
  {}

  lemma LifecycleLog(db: SessionDb, db': SessionDb, id: TaskId, row: EventRow)
    requires Inv(db) && LifecycleStep(db, db', id, row) && Allowed(ViewOf(db), row.body) && CallsKept(db.calls, db'.calls)
    ensures Holds(Log, db') && Holds(Counters, db') && Holds(TaskKeys, db') && Holds(ReplyKeys, db') && Holds(Replies, db')
    ensures ViewOf(db') == Apply(ViewOf(db), row.body)
  {
    LogAspects(db);
    RanksRise(ViewOf(db), row.body);
    AppendRow(db, db', row);
  }

  lemma TaskRowReplaced(
    tasks: map<TaskId, Task>, turns: map<TurnId, Turn>, preferences: map<nat, Preference>, id: TaskId, task: Task)
    requires TaskRowsOk(tasks, turns, preferences) && TaskRowOk(task, turns, preferences)
    ensures TaskRowsOk(tasks[id := task], turns, preferences)
  {}

  lemma LifecycleTasks(db: SessionDb, db': SessionDb, id: TaskId, row: EventRow)
    requires Holds(Tasks, db) && LifecycleStep(db, db', id, row) && ViewOf(db') == Apply(ViewOf(db), row.body)
    ensures Holds(Tasks, db')
  {}

  lemma LifecycleRows(db: SessionDb, db': SessionDb, id: TaskId, row: EventRow)
    requires Holds(TaskRows, db) && LifecycleStep(db, db', id, row)
    requires TaskRowOk(db'.tasks[id], db.turns, db.preferences)
    ensures Holds(TaskRows, db')
  {
    TaskRowReplaced(db.tasks, db.turns, db.preferences, id, db'.tasks[id]);
  }

  lemma LifecycleContents(db: SessionDb, db': SessionDb, id: TaskId, row: EventRow)
    requires Holds(Contents, db) && LifecycleStep(db, db', id, row) && ViewOf(db').chain == ViewOf(db).chain
    requires CallsKept(db.calls, db'.calls)
    ensures Holds(Contents, db')
  {
    ContentsKept(db.itineraries, ViewOf(db).chain, db.preferences, db.calls, db'.calls);
  }

  lemma LifecycleAspect(a: Aspect, db: SessionDb, db': SessionDb, id: TaskId, row: EventRow)
    requires Inv(db) && LifecycleStep(db, db', id, row) && Allowed(ViewOf(db), row.body)
    requires TaskRowOk(db'.tasks[id], db.turns, db.preferences)
    requires CallsOk(db'.tasks, db'.calls) && CallsKept(db.calls, db'.calls)
    ensures Holds(a, db')
  {
    LifecycleLog(db, db', id, row);
    match a
    case Tasks => LifecycleTasks(db, db', id, row);
    case TaskRows => LifecycleRows(db, db', id, row);
    case Contents => LifecycleContents(db, db', id, row);
    case Preferences => Frame(a, db, db');
    case Itineraries => Frame(a, db, db');
    case Turns => Frame(a, db, db');
    case _ =>
  }

  lemma LifecycleKeeps(db: SessionDb, db': SessionDb, id: TaskId, row: EventRow)
    requires Inv(db) && LifecycleStep(db, db', id, row) && Allowed(ViewOf(db), row.body)
    requires TaskRowOk(db'.tasks[id], db.turns, db.preferences)
    requires CallsOk(db'.tasks, db'.calls) && CallsKept(db.calls, db'.calls)
    ensures Inv(db')
  {
    forall a ensures Holds(a, db') {
      LifecycleAspect(a, db, db', id, row);
    }
  }

  /** The tool calls of other tasks stay, those of this task agree with its new status. */
  lemma CallsMoved(
    tasks: map<TaskId, Task>, calls: map<CallId, ToolCall>, id: TaskId, task: Task, calls': map<CallId, ToolCall>)
    requires CallsOk(tasks, calls) && id in tasks && tasks[id].status != Succeeded
    requires forall c :: c in calls ==> c in calls' && calls'[c].task == calls[c].task
    requires forall c :: c in calls' && calls'[c].task != id ==> c in calls && calls'[c] == calls[c]
    requires forall c :: c in calls' && calls'[c].task == id ==> CallOk(tasks[id := task], calls'[c])
    requires forall c, d :: c in calls' && d in calls' && calls'[c].task == id && calls'[d].task == id ==> c == d
    requires task.status == Succeeded ==> HasCall(calls', id)
    ensures CallsOk(tasks[id := task], calls') && CallsKept(calls, calls')
  {
    forall t | t in tasks[id := task] && tasks[id := task][t].status == Succeeded ensures HasCall(calls', t) {
      if t != id {
        var c :| c in calls && calls[c].task == t;
        assert c in calls' && calls'[c].task == t;
      }
    }
  }

  /** At its first move no key of the status is taken, so the event is appended and not skipped. */
  lemma MoveAppends(db: SessionDb, id: TaskId, to: TaskStatus)
    requires Inv(db) && id in db.tasks && Rank(db.tasks[id].status) < Rank(to)
    ensures !KeyTaken(db.outbox, KeyTask(id, to))
  {
    assert Holds(TaskKeys, db);
    assert Holds(Tasks, db);
    assert TaskMatches(db.tasks[id], ViewOf(db).tasks[id]);
  }

  lemma TaskMatchesView(db: SessionDb, id: TaskId)
    requires Inv(db) && id in db.tasks
    ensures id in ViewOf(db).tasks && TaskMatches(db.tasks[id], ViewOf(db).tasks[id])
    ensures TaskOk(ViewOf(db), ViewOf(db).tasks[id])
    ensures TaskRowOk(db.tasks[id], db.turns, db.preferences)
    ensures db.ctx == ViewOf(db).ctx && ViewOf(db).batch == Idle && ViewOf(db).pref >= 1
    ensures CallsOk(db.tasks, db.calls)
  {
    assert Holds(Tasks, db) && Holds(TaskRows, db) && Holds(Counters, db) && Holds(Calls, db);
    InvIsSound(db);
  }

  // ---------- Claim ----------

  /** Only calls of this task differ, in status, and each is left as the call of a cancelled task. */
  ghost predicate OnlyOwnCallsEnd(calls: map<CallId, ToolCall>, calls': map<CallId, ToolCall>, id: TaskId) {
    && calls'.Keys == calls.Keys
    && forall c :: c in calls ==>
         if calls[c].task == id
         then calls'[c] == calls[c].(status := calls'[c].status) && calls'[c].output.None?
              && (calls'[c].status == CallRunning || calls'[c].status == CallCancelled)
         else calls'[c] == calls[c]
  }

  lemma OwnCallsEnd(db: SessionDb, id: TaskId, task: Task, calls': map<CallId, ToolCall>)
    requires Inv(db) && id in db.tasks && db.tasks[id].status == CancelRequested && OnlyOwnCallsEnd(db.calls, calls', id)
    requires task == db.tasks[id].(status := Cancelled)
    ensures CallsOk(db.tasks[id := task], calls') && CallsKept(db.calls, calls')
  {
    TaskMatchesView(db, id);
    forall c | c in calls' && calls'[c].task == id ensures CallOk(db.tasks[id := task], calls'[c]) {
      assert CallOk(db.tasks, db.calls[c]);
    }
    CallsMoved(db.tasks, db.calls, id, task, calls');
  }

  lemma CancelKeeps(db: SessionDb, id: TaskId, calls': map<CallId, ToolCall>)
    requires Inv(db) && id in db.tasks && db.tasks[id].status == CancelRequested
    requires OnlyOwnCallsEnd(db.calls, calls', id)
    ensures Inv(MoveTask(db.(calls := calls'), id, Cancelled))
    ensures OneTaskStep(db, MoveTask(db.(calls := calls'), id, Cancelled), id)
  {
    var db' := MoveTask(db.(calls := calls'), id, Cancelled);
    var row := EventRow(db.lastSeq + 1, Moved(id, db.tasks[id], Cancelled), KeyTask(id, Cancelled));
    TaskMatchesView(db, id);
    MoveAppends(db, id, Cancelled);
    OwnCallsEnd(db, id, db'.tasks[id], calls');
    LifecycleKeeps(db, db', id, row);
    LifecycleIsOneTask(db, db', id, row);
  }

  lemma RequestedHasRunningCall(db: SessionDb, id: TaskId)
    requires Inv(db) && id in db.tasks && db.tasks[id].status == CancelRequested
    ensures forall c :: c in db.calls && db.calls[c].task == id ==>
              db.calls[c].status == CallRunning && db.calls[c].output.None?
  {
    TaskMatchesView(db, id);
    forall c | c in db.calls && db.calls[c].task == id ensures db.calls[c].status == CallRunning && db.calls[c].output.None? {
      assert CallOk(db.tasks, db.calls[c]);
    }
  }

  /** A queued task has no tool call yet, so the claim's insert meets no other request. */
  lemma UnclaimedHasNoCall(db: SessionDb, id: TaskId)
    requires Inv(db) && id in db.tasks && db.tasks[id].status == Queued
    ensures forall c :: c in db.calls ==> db.calls[c].task != id
    ensures !KeyTaken(db.outbox, KeyTask(id, Running))
  {
    TaskMatchesView(db, id);
    MoveAppends(db, id, Running);
    forall c | c in db.calls ensures db.calls[c].task != id {
      assert CallOk(db.tasks, db.calls[c]);
    }
  }

  function RunningTask(task: Task): Task {
    task.(status := Running, attempt := task.attempt + 1)
  }

  lemma RunStepKeeps(db: SessionDb, db': SessionDb, id: TaskId, newCall: CallId, call: ToolCall, row: EventRow)
    requires Inv(db) && id in db.tasks && db.tasks[id].status == Queued && newCall !in db.calls
    requires row == EventRow(db.lastSeq + 1, Moved(id, db.tasks[id], Running), KeyTask(id, Running))
    requires db' == db.(tasks := db.tasks[id := RunningTask(db.tasks[id])], calls := db.calls[newCall := call],
                        lastSeq := db.lastSeq + 1, outbox := db.outbox + [row])
    requires call.task == id && Some(call.ctx) == db.tasks[id].ctx && Some(call.pref) == db.tasks[id].pref
    requires call.status == CallRunning && call.output.None? && call.tool == db.tasks[id].taskType && call.input == db.tasks[id].input
    ensures Inv(db') && OneTaskStep(db, db', id)
  {
    UnclaimedHasNoCall(db, id);
    TaskMatchesView(db, id);
    CallsMoved(db.tasks, db.calls, id, db'.tasks[id], db'.calls);
    LifecycleKeeps(db, db', id, row);
    LifecycleIsOneTask(db, db', id, row);
  }

  lemma RunKeeps(db: SessionDb, id: TaskId, newCall: CallId)
    requires Inv(db) && id in db.tasks && db.tasks[id].status == Queued
    requires ClaimTask(db, id, newCall).Commit?
    ensures Inv(ClaimTask(db, id, newCall).db) && OneTaskStep(db, ClaimTask(db, id, newCall).db, id)
    ensures var db' := ClaimTask(db, id, newCall).db;
            && newCall !in db.calls && newCall in db'.calls && db'.calls[newCall].task == id
            && db'.tasks == db.tasks[id := RunningTask(db.tasks[id])]
            && ClaimTask(db, id, newCall).value == Claimed(Some(newCall), MockTravel, db.tasks[id].input)
    ensures db.tasks[id].attempt == 0
  {
    var db' := ClaimTask(db, id, newCall).db;
    TaskMatchesView(db, id);
    UnclaimedHasNoCall(db, id);
    assert db'.tasks == db.tasks[id := RunningTask(db.tasks[id])];
    RunStepKeeps(db, db', id, newCall, db'.calls[newCall],
      EventRow(db.lastSeq + 1, Moved(id, db.tasks[id], Running), KeyTask(id, Running)));
  }

  lemma ClaimTaskKeeps(db: SessionDb, id: TaskId, newCall: CallId)
    requires Inv(db) && ClaimTask(db, id, newCall).Commit?
    ensures Inv(ClaimTask(db, id, newCall).db)
    ensures ClaimTask(db, id, newCall).db == db || OneTaskStep(db, ClaimTask(db, id, newCall).db, id)
  {
    if id in db.tasks {
      if db.tasks[id].status == Queued {
        RunKeeps(db, id, newCall);
      } else if db.tasks[id].status == CancelRequested {
        RequestedHasRunningCall(db, id);
        assert db.(calls := db.calls) == db;
        CancelKeeps(db, id, db.calls);
      }
    }
  }

  lemma MarkCancelledKeeps(db: SessionDb, id: TaskId)
    requires Inv(db)
    ensures Inv(MarkCancelled(db, id))
    ensures MarkCancelled(db, id) == db || OneTaskStep(db, MarkCancelled(db, id), id)
  {
    if id in db.tasks && db.tasks[id].status == CancelRequested {
      RequestedHasRunningCall(db, id);
      CancelKeeps(db, id, CancelOpenCalls(db.calls, id));
    }
  }

  // ---------- Commit and failure ----------

  /** The tool call a runner opened when it claimed the task. */
  predicate OwnsCall(db: SessionDb, id: TaskId, call: Option<CallId>) {
    call.Some? && call.value in db.calls && db.calls[call.value].task == id
  }

  /** Besides staleness none of the reasons to discard can decide: the four-way test is "context not current". */
  lemma DiscardIsStaleness(db: SessionDb, id: TaskId, cancelSeen: bool)
    requires Inv(db) && id in db.tasks
    requires cancelSeen ==> db.tasks[id].ctx != Some(db.ctx)
    ensures MustDiscard(db, db.tasks[id], cancelSeen) <==> db.tasks[id].ctx != Some(db.ctx)
    ensures IsCurrent(db, db.tasks[id]) <==> db.tasks[id].ctx == Some(db.ctx)
  {
    TaskMatchesView(db, id);
    InvIsSound(db);
    var v := ViewOf(db);
    assert Holds(Preferences, db);
    assert v.turns[v.tasks[id].turn].ctx == v.ctx ==> v.tasks[id].pref == v.pref;
  }

  lemma FinishedCallsMoved(
    db: SessionDb, id: TaskId, call: Option<CallId>, status: CallStatus, output: Option<ToolOutput>, task: Task)
    requires Inv(db) && id in db.tasks && OwnsCall(db, id, call) && db.tasks[id].status != Succeeded
    requires task == db.tasks[id].(status := task.status, result := task.result)
    requires CallFits(db.calls[call.value].(status := status, output := output), task)
    ensures CallsOk(db.tasks[id := task], FinishCall(db.calls, call, status, output))
    ensures CallsKept(db.calls, FinishCall(db.calls, call, status, output))
    ensures forall c :: c in db.calls ==>
              && c in FinishCall(db.calls, call, status, output)
              && FinishCall(db.calls, call, status, output)[c].task == db.calls[c].task
  {
    TaskMatchesView(db, id);
    var calls' := FinishCall(db.calls, call, status, output);
    assert CallOk(db.tasks, db.calls[call.value]);
    assert calls'[call.value].task == id;
    CallsMoved(db.tasks, db.calls, id, task, calls');
  }

  /** Where a result goes: it is accepted exactly when the task's context is still the session's. */
  function Verdict(db: SessionDb, id: TaskId): TaskStatus
    requires id in db.tasks
  {
    if db.tasks[id].ctx == Some(db.ctx) then Succeeded else Discarded
  }

  predicate Uncommitted(db: SessionDb, id: TaskId) {
    id in db.tasks && db.tasks[id].attempt == 1 && db.tasks[id].status in {Running, CancelRequested, Cancelled}
  }

  lemma VerdictAllowed(db: SessionDb, id: TaskId)
    requires Inv(db) && Uncommitted(db, id)
    ensures Allowed(ViewOf(db), Moved(id, db.tasks[id], Verdict(db, id)))
    ensures !KeyTaken(db.outbox, KeyTask(id, Verdict(db, id)))
  {
    TaskMatchesView(db, id);
    InvIsSound(db);
    MoveAppends(db, id, Verdict(db, id));
    var v := ViewOf(db);
    assert v.turns[v.tasks[id].turn].ctx == v.tasks[id].ctx;
  }

  function CommittedTask(db: SessionDb, id: TaskId, output: ToolOutput): Task
    requires id in db.tasks
  {
    db.tasks[id].(status := Verdict(db, id), result := Some(output))
  }

  function CommittedCalls(db: SessionDb, id: TaskId, call: Option<CallId>, output: ToolOutput): map<CallId, ToolCall>
    requires id in db.tasks
  {
    FinishCall(db.calls, call, if Verdict(db, id) == Succeeded then CallSucceeded else CallDiscarded, Some(output))
  }

  lemma CommitShape(db: SessionDb, id: TaskId, call: Option<CallId>, output: ToolOutput, cancelSeen: bool)
    requires Inv(db) && Uncommitted(db, id)
    requires cancelSeen ==> db.tasks[id].ctx != Some(db.ctx)
    ensures CommitResult(db, id, call, output, cancelSeen)
            == Append(db.(tasks := db.tasks[id := CommittedTask(db, id, output)],
                          calls := CommittedCalls(db, id, call, output)),
                      Moved(id, db.tasks[id], Verdict(db, id)), KeyTask(id, Verdict(db, id)))
  {
    DiscardIsStaleness(db, id, cancelSeen);
    VerdictAllowed(db, id);
    assert db.tasks[id := db.tasks[id].(result := Some(output))][id := CommittedTask(db, id, output)]
        == db.tasks[id := CommittedTask(db, id, output)];
  }

  lemma EndedRowOk(task: Task, task': Task, turns: map<TurnId, Turn>, preferences: map<nat, Preference>)
    requires TaskRowOk(task, turns, preferences) && task.attempt == 1
    requires task' == task.(status := task'.status, result := task'.result)
    requires task'.status != Queued && (task'.result.Some? <==> task'.status in {Succeeded, Discarded})
    ensures TaskRowOk(task', turns, preferences)
  {}

  /** The runner of a task ends it: the task, its call and one row of the log change together. */
  lemma RunEndKeeps(
    db: SessionDb, db': SessionDb, id: TaskId, call: Option<CallId>, status: CallStatus, output: Option<ToolOutput>,
    task: Task, row: EventRow)
    requires Inv(db) && Uncommitted(db, id) && OwnsCall(db, id, call)
    requires task == db.tasks[id].(status := task.status, result := task.result)
    requires task.status !in {Queued, CancelRequested}
    requires CallFits(db.calls[call.value].(status := status, output := output), task)
    requires task.result.Some? <==> task.status in {Succeeded, Discarded}
    requires row.seqNo == db.lastSeq + 1 && row.key == KeyTask(id, task.status)
    requires row.body.TaskMoved? && row.body.task == id && row.body.to == task.status && Allowed(ViewOf(db), row.body)
    requires db' == db.(tasks := db.tasks[id := task], calls := FinishCall(db.calls, call, status, output),
                        lastSeq := db.lastSeq + 1, outbox := db.outbox + [row])
    ensures Inv(db') && OneTaskStep(db, db', id)
  {
    TaskMatchesView(db, id);
    FinishedCallsMoved(db, id, call, status, output, task);
    EndedRowOk(db.tasks[id], task, db.turns, db.preferences);
    LifecycleKeeps(db, db', id, row);
    LifecycleIsOneTask(db, db', id, row);
  }

  lemma CommitResultKeeps(db: SessionDb, id: TaskId, call: Option<CallId>, output: ToolOutput, cancelSeen: bool)
    requires Inv(db) && Uncommitted(db, id) && OwnsCall(db, id, call)
    requires cancelSeen ==> db.tasks[id].ctx != Some(db.ctx)
    ensures Inv(CommitResult(db, id, call, output, cancelSeen))
    ensures OneTaskStep(db, CommitResult(db, id, call, output, cancelSeen), id)
    ensures CommitResult(db, id, call, output, cancelSeen).tasks[id] == CommittedTask(db, id, output)
  {
    CommitShape(db, id, call, output, cancelSeen);
    VerdictAllowed(db, id);
    RunEndKeeps(db, CommitResult(db, id, call, output, cancelSeen), id, call,
      if Verdict(db, id) == Succeeded then CallSucceeded else CallDiscarded, Some(output), CommittedTask(db, id, output),
      EventRow(db.lastSeq + 1, Moved(id, db.tasks[id], Verdict(db, id)), KeyTask(id, Verdict(db, id))));
  }

  lemma FailKeeps(db: SessionDb, id: TaskId, call: Option<CallId>)
    requires Inv(db) && OwnsCall(db, id, call) && id in db.tasks && db.tasks[id].status == Running
    ensures Inv(FailTask(db, id, call)) && OneTaskStep(db, FailTask(db, id, call), id)
  {
    TaskMatchesView(db, id);
    MoveAppends(db, id, Failed);
    RunEndKeeps(db, FailTask(db, id, call), id, call, CallFailed, None, db.tasks[id].(status := Failed),
      EventRow(db.lastSeq + 1, TaskMoved(id, Failed, None, None), KeyTask(id, Failed)));
  }

  lemma FailTaskKeeps(db: SessionDb, id: TaskId, call: Option<CallId>)
    requires Inv(db) && id in db.tasks && OwnsCall(db, id, call)
    requires db.tasks[id].status !in {Queued, Failed}
    ensures Inv(FailTask(db, id, call))
    ensures FailTask(db, id, call) == db || OneTaskStep(db, FailTask(db, id, call), id)
  {
    if db.tasks[id].status == CancelRequested {
      RequestedHasRunningCall(db, id);
      CancelKeeps(db, id, FinishCall(db.calls, call, CallCancelled, None));
    } else if db.tasks[id].status == Running {
      FailKeeps(db, id, call);
    }
  }
}
