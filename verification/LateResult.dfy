/** One run in which a cancelled task becomes discarded.

  The design says that a terminal status never changes, and FinalStatuses.FinalIff says exactly when it does not.  This
  run shows that it can: a redelivered task message cancels the task while its first runner is still executing, and the
  runner then commits its late result.
 */
module LateResult {
  import opened Rows
  import opened Transactions
  import opened Runs
  import opened Theorems
  import opened FinalStatuses
  import IV = InputValidation

  const LIMITS := IV.Limits(8, 8, 64, 64)
  const TURN: TurnId := 10
  const TASK: TaskId := 20
  const CALL: CallId := 30

  const INPUT := PlannedInput(map[], "go")
  const PACKET := Packet(TURN, 1, 1, 0, map[], "go")

  /** The task as each step leaves it. */
  function TaskAt(status: TaskStatus, attempt: nat, result: Option<ToolOutput>): Task {
    Task(Some(TURN), Some(1), Some(1), Some(0), MockTravel, Some(IdempotencyKey(1, 0, MockTravel, INPUT)), INPUT,
         status, attempt, result)
  }

  function CallAt(status: CallStatus, output: Option<ToolOutput>): ToolCall {
    ToolCall(TASK, 1, 1, MockTravel, status, INPUT, output)
  }

  function TurnAt(interrupted: bool): Turn {
    if interrupted then Turn(1, UserText, Interrupted, 1, None, "go", None, Some("stop"))
    else Turn(1, UserText, UserFinal, 1, None, "go", None, None)
  }

  const E1 := EventRow(1, SessionCreated(0, 1), KeySession)
  const E2 := EventRow(2, TurnFinalized(TURN, 1, 1), KeyTurn("a"))
  const E3 := EventRow(3, TaskQueued(TASK, TURN, 1, 1, 0, MockTravel), KeyTask(TASK, Queued))

  function MoveRow(seqNo: nat, to: TaskStatus): EventRow {
    EventRow(seqNo, TaskMoved(TASK, to, Some(TURN), Some(1)), KeyTask(TASK, to))
  }

  const E6 := EventRow(6, InterruptAccepted(TURN, 2, [TASK], Interrupted, "stop"), KeyInterrupt("b"))

  const PREFERENCES := map[1 := Preference(Active, map[], None)]

  function Db(
    ctx: nat, turn: map<TurnId, Turn>, task: map<TaskId, Task>, call: map<CallId, ToolCall>, outbox: seq<EventRow>): SessionDb
  {
    SessionDb(ctx, |outbox|, PREFERENCES, turn, task, call, map[], outbox)
  }

  const D0 := Db(0, map[], map[], map[], [E1])
  const D1 := Db(1, map[TURN := TurnAt(false)], map[], map[], [E1, E2])
  const D2 := Db(1, map[TURN := TurnAt(false)], map[TASK := TaskAt(Queued, 0, None)], map[], [E1, E2, E3])
  const D3 := Db(1, map[TURN := TurnAt(false)], map[TASK := TaskAt(Running, 1, None)],
                 map[CALL := CallAt(CallRunning, None)], [E1, E2, E3, MoveRow(4, Running)])
  const D4 := Db(2, map[TURN := TurnAt(true)], map[TASK := TaskAt(CancelRequested, 1, None)],
                 map[CALL := CallAt(CallRunning, None)], [E1, E2, E3, MoveRow(4, Running), MoveRow(5, CancelRequested), E6])
  const D5 := Db(2, map[TURN := TurnAt(true)], map[TASK := TaskAt(Cancelled, 1, None)],
                 map[CALL := CallAt(CallRunning, None)],
                 [E1, E2, E3, MoveRow(4, Running), MoveRow(5, CancelRequested), E6, MoveRow(7, Cancelled)])

  lemma PreferenceOne(db: SessionDb)
    requires db.preferences == PREFERENCES
    ensures ActivePreference(db) == Some(1)
  {
    assert IsActive(db, 1);
  }

  lemma NoItinerary(db: SessionDb)
    requires db.itineraries == map[]
    ensures CurrentItinerary(db) == 0
  {}

  lemma Finalized1()
    ensures FinalizeTurn(D0, TURN, "go", "a").Commit? && FinalizeTurn(D0, TURN, "go", "a").db == D1
  {
    PreferenceOne(D0);
    assert !KeyTaken(D0.outbox, KeyTurn("a"));
  }

  lemma Packet1()
    ensures BuildPacket(D1, TURN, 1, Some(1)) == Some(PACKET)
  {
    NoItinerary(D1);
  }

  lemma InputIsValid()
    ensures IV.Validate(LIMITS, InputJson(INPUT), 0).Accepted?
  {
    IV.EntriesAccepted(LIMITS, InputJson(INPUT), InputJson(INPUT).entries, 1);
  }

  lemma Planned2()
    ensures CreateTasks(LIMITS, D1, PACKET, Decide(PACKET), [TASK]) == Commit(D2, [TASK])
  {
    PreferenceOne(D1);
    NoItinerary(D1);
    InputIsValid();
    var plans := Decide(PACKET).plans;
    assert plans[..0] == [] && [TASK][..0] == [];
    assert CreateAll(LIMITS, D1, PACKET, plans[..0], [TASK][..0]) == Commit(D1, []);
    assert !KeyTaken(D1.outbox, KeyTask(TASK, Queued));
    assert CreateOne(LIMITS, D1, PACKET, plans[0], TASK) == Commit(D2, TASK);
    assert [] + [TASK] == [TASK];
  }

  lemma Claimed3()
    ensures ClaimTask(D2, TASK, CALL) == Commit(D3, Claimed(Some(CALL), MockTravel, INPUT))
  {
    assert !KeyTaken(D2.outbox, KeyTask(TASK, Running));
  }

  lemma Interrupted4()
    ensures Enumerates([TASK], TasksToCancel(D3, TURN))
    ensures RegisterInterrupt(D3, TURN, "stop", "b", [TASK]).Commit? && RegisterInterrupt(D3, TURN, "stop", "b", [TASK]).db == D4
  {
    assert TasksToCancel(D3, TURN) == {TASK};
    assert [TASK][..0] == [] && RequestAll(D3, TURN, []) == D3;
    assert !KeyTaken(D3.outbox, KeyInterrupt("b")) && !KeyTaken(D3.outbox, KeyTask(TASK, CancelRequested));
  }

  lemma Cancelled5()
    ensures ClaimTask(D4, TASK, CALL) == Commit(D5, NotClaimed)
  {
    assert !KeyTaken(D4.outbox, KeyTask(TASK, Cancelled));
  }

  // ---------- The run ----------

  /** The request is submitted and does not find its key. */
  lemma Asks(w: World, req: RequestId, command: Command) returns (w': World)
    requires Reachable(w) && req !in w.requests && !KeyTaken(w.db.outbox, CommandKey(command))
    ensures Reachable(w') && w' == w.(requests := w.requests[req := Request(command, Unseen)])
  {
    var w1 := Do(w, Submit(req, command));
    ReachableStep(w, Submit(req, command));
    w' := Do(w1, DedupeCheck(req));
    ReachableStep(w1, DedupeCheck(req));
    assert w'.requests == w.requests[req := Request(command, Unseen)];
  }

  lemma TurnIsFinalized() returns (w: World)
    ensures Reachable(w) && w.db == D1 && w.runners == map[] && w.limits == LIMITS && w.requests.Keys == {0}
  {
    var start := Init(LIMITS, map[]);
    assert Run(LIMITS, map[], []).steps[..0] == [];
    assert EndsIn(Run(LIMITS, map[], []), start);
    assert !KeyTaken(D0.outbox, KeyTurn("a"));
    var asked := Asks(start, 0, Finalize("a", "go"));
    Finalized1();
    ReachableStep(asked, Execute(0, TURN, []));
    w := Do(asked, Execute(0, TURN, []));
  }

  lemma TaskIsQueued() returns (w: World)
    ensures Reachable(w) && w.db == D2 && w.runners == map[] && w.requests.Keys == {0}
  {
    var w1 := TurnIsFinalized();
    Packet1();
    ReachableStep(w1, PublishTurn(1));
    var w2 := Do(w1, PublishTurn(1));
    Planned2();
    ReachableStep(w2, PlanMessage(PACKET, TASK));
    w := Do(w2, PlanMessage(PACKET, TASK));
  }

  function RunnerAt(pc: Pc, output: Option<ToolOutput>): Runner {
    Runner(TASK, Some(CALL), MockTravel, pc, output, false)
  }

  lemma TaskIsClaimed() returns (w: World)
    ensures Reachable(w) && w.db == D3 && w.runners == map[0 := RunnerAt(CheckKey, None)] && w.requests.Keys == {0}
  {
    var before := TaskIsQueued();
    Claimed3();
    ReachableStep(before, TaskMessage(TASK, 0, CALL));
    w := Do(before, TaskMessage(TASK, 0, CALL));
  }

  /** The first runner has passed its check and is executing. */
  lemma TaskIsRunning() returns (w: World)
    ensures Reachable(w) && w.db == D3 && w.runners == map[0 := RunnerAt(Executing, None)] && w.requests.Keys == {0}
  {
    var before := TaskIsClaimed();
    ReachableStep(before, ReadKey(0, false));
    var checked := Do(before, ReadKey(0, false));
    assert checked == before.(runners := map[0 := RunnerAt(CheckRow, None)]);
    ReachableStep(checked, ReadRow(0));
    w := Do(checked, ReadRow(0));
  }

  lemma CancellationIsRequested() returns (w: World)
    ensures Reachable(w) && w.db == D4 && w.runners == map[0 := RunnerAt(Executing, None)]
  {
    var before := TaskIsRunning();
    assert !KeyTaken(D3.outbox, KeyInterrupt("b"));
    var asked := Asks(before, 1, Interrupt("b", TURN, "stop"));
    Interrupted4();
    ReachableStep(asked, Execute(1, 0, [TASK]));
    w := Do(asked, Execute(1, 0, [TASK]));
  }

  /** An interrupt has asked for its cancellation, and the redelivered message cancels it. */
  lemma TaskIsCancelled() returns (w: World)
    ensures Reachable(w) && w.db == D5 && w.runners == map[0 := RunnerAt(Executing, None)]
  {
    var before := CancellationIsRequested();
    Cancelled5();
    ReachableStep(before, TaskMessage(TASK, 1, CALL));
    w := Do(before, TaskMessage(TASK, 1, CALL));
  }

  /** `cancelled` is not final: some run leaves it for `discarded`. */
  lemma CancelledCanBecomeDiscarded()
    ensures exists w, steps, id ::
              && Reachable(w) && id in w.db.tasks && w.db.tasks[id].status == Cancelled
              && id in After(w, steps).db.tasks && After(w, steps).db.tasks[id].status == Discarded
  {
    var w := TaskIsCancelled();
    assert OnItsWay(w.runners[0]);
    CancelledDiscardedIff(w, TASK);
  }
}
