/** An interrupt keeps the invariant, and leaves no queued or running task of its turn. */
module InterruptSteps {
  import opened Rows
  import opened Transactions
  import opened History
  import opened Refinement
  import opened TaskSteps

  /** Everything `register_interrupt` has checked when it starts to write. */
  ghost predicate Interrupts(db: SessionDb, turn: TurnId, rows: seq<TaskId>) {
    && turn in db.turns && db.turns[turn].ctx == db.ctx
    && Enumerates(rows, TasksToCancel(db, turn))
    && forall t :: t in rows ==> !KeyTaken(db.outbox, KeyTask(t, CancelRequested))
  }

  /** Every row is a task that may still be cancelled, and none occurs twice. */
  ghost predicate Requestable(db: SessionDb, turn: TurnId, rows: seq<TaskId>) {
    && (forall t :: t in rows ==> t in db.tasks && Interruptible(db.tasks[t], turn, db.ctx)
                                  && !KeyTaken(db.outbox, KeyTask(t, CancelRequested)))
    && forall i, j :: 0 <= i < j < |rows| ==> rows[i] != rows[j]
  }

  /** What the loop changes: the listed tasks, and the log by one row each. */
  ghost predicate Requested(db: SessionDb, d: SessionDb, rows: seq<TaskId>) {
    && d == db.(tasks := d.tasks, lastSeq := d.lastSeq, outbox := d.outbox)
    && d.lastSeq == db.lastSeq + |rows|
    && d.tasks.Keys == db.tasks.Keys
    && (forall t :: t in db.tasks ==>
          d.tasks[t] == if t in rows then db.tasks[t].(status := CancelRequested) else db.tasks[t])
    && (forall key :: KeyTaken(d.outbox, key) ==>
          KeyTaken(db.outbox, key) || (key.KeyTask? && key.task in rows && key.status == CancelRequested))
  }

  lemma {:induction false} RequestAllChanges(db: SessionDb, turn: TurnId, rows: seq<TaskId>)
    requires forall t :: t in rows ==> t in db.tasks
    ensures Requested(db, RequestAll(db, turn, rows), rows)
  {
    if rows != [] {
      var n := |rows| - 1;
      assert rows == rows[..n] + [rows[n]];
      RequestAllChanges(db, turn, rows[..n]);
      var d := RequestAll(db, turn, rows[..n]);
      KeyTakenAppend(d.outbox, EventRow(d.lastSeq + 1,
        TaskMoved(rows[n], CancelRequested, Some(turn), d.tasks[rows[n]].ctx), KeyTask(rows[n], CancelRequested)));
    }
  }

  ghost predicate LogAndTasks(d: SessionDb) {
    Holds(Log, d) && Holds(TaskKeys, d) && Holds(ReplyKeys, d) && Holds(Replies, d) && Holds(Tasks, d)
  }

  /** Between its first cancel request and its own event an interrupt is the open batch of the log. */
  ghost predicate Pending(db: SessionDb, d: SessionDb, turn: TurnId) {
    && ViewOf(d).batch in {Idle, Interrupting(turn)}
    && ViewOf(d) == ViewOf(db).(tasks := ViewOf(d).tasks, batch := ViewOf(d).batch)
  }

  function RequestRow(d: SessionDb, turn: TurnId, id: TaskId): EventRow
    requires id in d.tasks
  {
    EventRow(d.lastSeq + 1, TaskMoved(id, CancelRequested, Some(turn), d.tasks[id].ctx), KeyTask(id, CancelRequested))
  }

  lemma RequestAllowed(d: SessionDb, turn: TurnId, id: TaskId)
    requires Holds(Tasks, d) && id in d.tasks && Interruptible(d.tasks[id], turn, d.ctx)
    requires d.ctx == ViewOf(d).ctx && ViewOf(d).pref >= 1 && ViewOf(d).batch in {Idle, Interrupting(turn)}
    ensures Allowed(ViewOf(d), RequestRow(d, turn, id).body)
    ensures id in ViewOf(d).tasks && ViewOf(d).tasks[id].turn == turn
  {
    assert TaskMatches(d.tasks[id], ViewOf(d).tasks[id]);
  }

  lemma RequestOneLog(d: SessionDb, d': SessionDb, row: EventRow)
    requires Holds(Log, d) && Holds(TaskKeys, d) && Holds(ReplyKeys, d) && Holds(Replies, d)
    requires OneMoreRow(d, d', row) && row.body.TaskMoved?
    requires d'.turns == d.turns && d'.preferences == d.preferences && d'.calls == d.calls
    ensures Holds(Log, d') && Holds(TaskKeys, d') && Holds(ReplyKeys, d') && Holds(Replies, d')
    ensures ViewOf(d') == Apply(ViewOf(d), row.body)
  {
    assert RepliesPersist(d.turns, d'.turns);
    AppendRow(d, d', row);
  }

  lemma RequestOneTasks(d: SessionDb, d': SessionDb, turn: TurnId, id: TaskId)
    requires Holds(Tasks, d) && id in d.tasks
    requires d'.tasks == d.tasks[id := d.tasks[id].(status := CancelRequested)]
    requires ViewOf(d').tasks == ViewOf(d).tasks[id := ViewOf(d).tasks[id].(status := CancelRequested)]
    ensures Holds(Tasks, d')
  {}

  lemma RequestOneKeeps(d: SessionDb, turn: TurnId, id: TaskId)
    requires LogAndTasks(d) && id in d.tasks && Interruptible(d.tasks[id], turn, d.ctx)
    requires d.ctx == ViewOf(d).ctx && ViewOf(d).pref >= 1 && ViewOf(d).batch in {Idle, Interrupting(turn)}
    requires !KeyTaken(d.outbox, KeyTask(id, CancelRequested))
    ensures LogAndTasks(RequestOne(d, turn, id))
    ensures Pending(d, RequestOne(d, turn, id), turn)
  {
    var d' := RequestOne(d, turn, id);
    RequestAllowed(d, turn, id);
    RequestOneLog(d, d', RequestRow(d, turn, id));
    RequestOneTasks(d, d', turn, id);
  }

  lemma {:induction false} RequestAllKeeps(db: SessionDb, turn: TurnId, rows: seq<TaskId>)
    requires LogAndTasks(db) && db.ctx == ViewOf(db).ctx && ViewOf(db).pref >= 1 && ViewOf(db).batch == Idle
    requires Requestable(db, turn, rows)
    ensures LogAndTasks(RequestAll(db, turn, rows)) && Pending(db, RequestAll(db, turn, rows), turn)
  {
    if rows != [] {
      var n := |rows| - 1;
      assert rows == rows[..n] + [rows[n]];
      RequestAllKeeps(db, turn, rows[..n]);
      RequestAllChanges(db, turn, rows[..n]);
      RequestOneKeeps(RequestAll(db, turn, rows[..n]), turn, rows[n]);
    }
  }

  lemma InterruptsIsRequestable(db: SessionDb, turn: TurnId, rows: seq<TaskId>)
    requires Interrupts(db, turn, rows)
    ensures Requestable(db, turn, rows)
  {
    assert forall t :: t in rows ==> t in TasksToCancel(db, turn);
  }

  /** After the cancel requests no task of the turn is queued or running: the query has found them all. */
  lemma AllRequested(db: SessionDb, turn: TurnId, rows: seq<TaskId>, d: SessionDb, id: TaskId)
    requires Inv(db) && Interrupts(db, turn, rows) && id in db.tasks && db.tasks[id].turn == Some(turn)
    requires Requested(db, d, rows)
    ensures d.tasks[id].status !in {Queued, Running}
  {
    TaskMatchesView(db, id);
    assert Holds(Turns, db);
    assert TurnMatches(db.turns[turn], ViewOf(db).turns[turn]);
    assert id in rows <==> id in TasksToCancel(db, turn);
  }

  lemma RequestedViews(db: SessionDb, turn: TurnId, rows: seq<TaskId>, d: SessionDb)
    requires Inv(db) && Interrupts(db, turn, rows) && Requested(db, d, rows) && Holds(Tasks, d)
    ensures forall id :: id in ViewOf(d).tasks && ViewOf(d).tasks[id].turn == turn ==>
              ViewOf(d).tasks[id].status !in {Queued, Running}
    ensures forall id :: id in rows ==>
              id in ViewOf(d).tasks && ViewOf(d).tasks[id].turn == turn && ViewOf(d).tasks[id].status == CancelRequested
  {
    var v := ViewOf(d);
    InterruptsIsRequestable(db, turn, rows);
    forall id | id in v.tasks && v.tasks[id].turn == turn ensures v.tasks[id].status !in {Queued, Running} {
      assert TaskMatches(d.tasks[id], v.tasks[id]);
      AllRequested(db, turn, rows, d, id);
    }
    forall id | id in rows ensures id in v.tasks && v.tasks[id].turn == turn && v.tasks[id].status == CancelRequested {
      assert TaskMatches(d.tasks[id], v.tasks[id]);
    }
  }

  lemma AcceptedAllowed(db: SessionDb, turn: TurnId, rows: seq<TaskId>, d: SessionDb, reason: string)
    requires Inv(db) && Interrupts(db, turn, rows) && Requested(db, d, rows)
    requires Pending(db, d, turn) && Holds(Tasks, d)
    ensures Allowed(ViewOf(d), InterruptAccepted(turn, db.ctx + 1, rows, Interrupted, reason))
  {
    LogAspects(db);
    assert Holds(Turns, db);
    RequestedViews(db, turn, rows, d);
  }

  lemma RequestedRow(task: Task, task': Task, turns: map<TurnId, Turn>, turns': map<TurnId, Turn>, preferences: map<nat, Preference>)
    requires TaskRowOk(task, turns, preferences)
    requires task' == task || (task.status in {Queued, Running} && task' == task.(status := CancelRequested))
    requires forall t :: t in turns ==> t in turns' && turns'[t].text == turns[t].text
    ensures TaskRowOk(task', turns', preferences)
  {}

  lemma RequestedCalls(db: SessionDb, d: SessionDb, turn: TurnId, rows: seq<TaskId>)
    requires CallsOk(db.tasks, db.calls) && Requestable(db, turn, rows) && Requested(db, d, rows)
    ensures CallsOk(d.tasks, d.calls)
  {}

  ghost predicate InterruptStep(
    db: SessionDb, d: SessionDb, db': SessionDb, turn: TurnId, rows: seq<TaskId>, reason: string, row: EventRow)
  {
    && Interrupts(db, turn, rows) && Requested(db, d, rows) && LogAndTasks(d) && Pending(db, d, turn)
    && db' == d.(ctx := db.ctx + 1, lastSeq := d.lastSeq + 1, outbox := d.outbox + [row],
                 turns := db.turns[turn := db.turns[turn].(status := Interrupted, interruptReason := Some(reason))])
    && row == EventRow(d.lastSeq + 1, InterruptAccepted(turn, db.ctx + 1, rows, Interrupted, reason), row.key)
    && row.key.KeyInterrupt? && !KeyTaken(db.outbox, row.key)
  }

  lemma InterruptLog(
    db: SessionDb, d: SessionDb, db': SessionDb, turn: TurnId, rows: seq<TaskId>, reason: string, row: EventRow)
    requires Inv(db) && InterruptStep(db, d, db', turn, rows, reason, row)
    ensures Holds(Log, db') && Holds(TaskKeys, db') && Holds(ReplyKeys, db') && Holds(Replies, db')
    ensures Holds(Counters, db')
    ensures ViewOf(db') == Apply(ViewOf(d), row.body)
  {
    LogAspects(db);
    AcceptedAllowed(db, turn, rows, d, reason);
    AppendRow(d, db', row);
  }

  lemma InterruptTaskRows(
    db: SessionDb, d: SessionDb, db': SessionDb, turn: TurnId, rows: seq<TaskId>, reason: string, row: EventRow)
    requires Holds(TaskRows, db) && InterruptStep(db, d, db', turn, rows, reason, row)
    ensures Holds(TaskRows, db')
  {
    assert forall t :: t in db.turns ==> t in db'.turns && db'.turns[t].text == db.turns[t].text;
    InterruptsIsRequestable(db, turn, rows);
    forall id | id in db'.tasks ensures TaskRowOk(db'.tasks[id], db'.turns, db'.preferences) {
      RequestedRow(db.tasks[id], d.tasks[id], db.turns, db'.turns, db.preferences);
    }
  }

  lemma InterruptCalls(
    db: SessionDb, d: SessionDb, db': SessionDb, turn: TurnId, rows: seq<TaskId>, reason: string, row: EventRow)
    requires Holds(Calls, db) && InterruptStep(db, d, db', turn, rows, reason, row)
    ensures Holds(Calls, db')
  {
    InterruptsIsRequestable(db, turn, rows);
    RequestedCalls(db, d, turn, rows);
  }

  lemma InterruptTurns(
    db: SessionDb, d: SessionDb, db': SessionDb, turn: TurnId, rows: seq<TaskId>, reason: string, row: EventRow)
    requires Holds(Turns, db) && InterruptStep(db, d, db', turn, rows, reason, row)
    requires ViewOf(db') == Apply(ViewOf(d), row.body)
    ensures Holds(Turns, db')
  {}

  lemma InterruptAspect(
    a: Aspect, db: SessionDb, d: SessionDb, db': SessionDb, turn: TurnId, rows: seq<TaskId>, reason: string, row: EventRow)
    requires Inv(db) && InterruptStep(db, d, db', turn, rows, reason, row)
    ensures Holds(a, db')
  {
    InterruptLog(db, d, db', turn, rows, reason, row);
    match a
    case TaskRows => InterruptTaskRows(db, d, db', turn, rows, reason, row);
    case Calls => InterruptCalls(db, d, db', turn, rows, reason, row);
    case Turns => InterruptTurns(db, d, db', turn, rows, reason, row);
    case Preferences => Frame(a, db, db');
    case Itineraries => Frame(a, db, db');
    case Contents => Frame(a, db, db');
    case _ =>
  }

  lemma InterruptStepKeeps(
    db: SessionDb, d: SessionDb, db': SessionDb, turn: TurnId, rows: seq<TaskId>, reason: string, row: EventRow)
    requires Inv(db) && InterruptStep(db, d, db', turn, rows, reason, row)
    ensures Inv(db')
    ensures forall id :: id in db.tasks && db.tasks[id].turn == Some(turn) ==> db'.tasks[id].status !in {Queued, Running}
  {
    forall a ensures Holds(a, db') {
      InterruptAspect(a, db, d, db', turn, rows, reason, row);
    }
    forall id | id in db.tasks && db.tasks[id].turn == Some(turn)
      ensures id in db'.tasks && db'.tasks[id].status !in {Queued, Running}
    {
      AllRequested(db, turn, rows, d, id);
    }
  }

  function InterruptRow(db: SessionDb, d: SessionDb, turn: TurnId, rows: seq<TaskId>, reason: string, clientEvent: string): EventRow {
    EventRow(d.lastSeq + 1, InterruptAccepted(turn, db.ctx + 1, rows, Interrupted, reason), KeyInterrupt(clientEvent))
  }

  lemma RegisterShape(db: SessionDb, turn: TurnId, reason: string, clientEvent: string, rows: seq<TaskId>)
    requires Enumerates(rows, TasksToCancel(db, turn))
    requires RegisterInterrupt(db, turn, reason, clientEvent, rows).Commit?
    ensures Interrupts(db, turn, rows) && !KeyTaken(db.outbox, KeyInterrupt(clientEvent))
    ensures var d := RequestAll(db, turn, rows);
            RegisterInterrupt(db, turn, reason, clientEvent, rows).db
            == d.(ctx := db.ctx + 1, lastSeq := d.lastSeq + 1,
                  outbox := d.outbox + [InterruptRow(db, d, turn, rows, reason, clientEvent)],
                  turns := db.turns[turn := db.turns[turn].(status := Interrupted, interruptReason := Some(reason))])
  {}

  lemma RequestsKeep(db: SessionDb, turn: TurnId, rows: seq<TaskId>)
    requires Inv(db) && Interrupts(db, turn, rows)
    ensures var d := RequestAll(db, turn, rows); Requested(db, d, rows) && LogAndTasks(d) && Pending(db, d, turn)
  {
    LogAspects(db);
    assert Holds(Tasks, db);
    InterruptsIsRequestable(db, turn, rows);
    RequestAllKeeps(db, turn, rows);
    RequestAllChanges(db, turn, rows);
  }

  lemma RegisterInterruptKeeps(db: SessionDb, turn: TurnId, reason: string, clientEvent: string, rows: seq<TaskId>)
    requires Inv(db) && Enumerates(rows, TasksToCancel(db, turn))
    requires RegisterInterrupt(db, turn, reason, clientEvent, rows).Commit?
    ensures Inv(RegisterInterrupt(db, turn, reason, clientEvent, rows).db)
    ensures forall id :: id in db.tasks && db.tasks[id].turn == Some(turn) ==>
              && id in RegisterInterrupt(db, turn, reason, clientEvent, rows).db.tasks
              && RegisterInterrupt(db, turn, reason, clientEvent, rows).db.tasks[id].status !in {Queued, Running}
  {
    var d := RequestAll(db, turn, rows);
    RegisterShape(db, turn, reason, clientEvent, rows);
    RequestsKeep(db, turn, rows);
    InterruptStepKeeps(db, d, RegisterInterrupt(db, turn, reason, clientEvent, rows).db, turn, rows, reason,
                       InterruptRow(db, d, turn, rows, reason, clientEvent));
  }
}
