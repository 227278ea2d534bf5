/** What the workers do with a message, step by step and in terms of the tables alone. */
module WorkOutcomes {
  import opened Rows
  import opened Transactions
  import opened History
  import opened Refinement
  import opened TaskSteps
  import opened ReplySteps
  import opened Runs
  import opened RunInvariant
  import opened RunSafety
  import opened Theorems
  import opened ReplyTheorems
  import opened ReplyContents
  import IV = InputValidation

  // ---------- Planning ----------

  /** A plan message carries what its event announced, the payload and the text of these versions, and the version
    confirmed by now. */
  lemma TurnIsPublished(w: World, index: nat)
    requires Reachable(w) && index < |w.db.outbox| && w.db.outbox[index].body.TurnFinalized?
    ensures var e := w.db.outbox[index].body;
            && e.turn in w.db.turns && e.pref in w.db.preferences
            && Do(w, PublishTurn(index)) == w.(packets := w.packets + {
                 Packet(e.turn, e.ctx, e.pref, |w.db.itineraries|,
                        w.db.preferences[e.pref].payload, w.db.turns[e.turn].text)})
  {
    ReachableInv(w);
    PublishedPacketOk(w.db, index);
    CurrentIsCount(w.db);
  }

  lemma CurrentIsCount(db: SessionDb)
    requires Inv(db)
    ensures CurrentItinerary(db) == |db.itineraries|
  {
    ConfirmedIsLatest(db);
    assert Holds(Itineraries, db);
    VersionsAreCounted(db.itineraries, |ViewOf(db).chain|);
  }

  /** An input is accepted exactly when its two texts are, and its three short keys and one level of nesting are. */
  lemma InputFits(l: IV.Limits, destination: string, query: string)
    ensures IV.Validate(l, InputJson(TravelInput(destination, query)), 0).Accepted?
            <==> && |destination| <= l.maxStringLength && |query| <= l.maxStringLength
                 && l.maxDepth >= 1 && l.maxItems >= 3 && l.maxKeyLength >= 11
  {
    var v := InputJson(TravelInput(destination, query));
    IV.AcceptedStep(l, v, 0);
    var cs := IV.Children(v);
    assert |cs| == 3 && cs[0] == IV.JString(destination) && cs[1] == IV.JString(query) && cs[2] == IV.JBool(true);
    assert v.entries[0].key == IV.TextKey("destination") && v.entries[1].key == IV.TextKey("query")
        && v.entries[2].key == IV.TextKey("mock");
    assert |"destination"| == 11 && |"query"| == 5 && |"mock"| == 4;
  }

  /** The task is new: queued for the packet's turn and versions, with its destination and text. */
  predicate IsPlanned(task: Task, packet: Packet) {
    && task.turn == Some(packet.turn) && task.ctx == Some(packet.ctx) && task.pref == Some(packet.pref)
    && task.itin == Some(packet.itin) && task.taskType == MockTravel
    && task.status == Queued && task.attempt == 0 && task.result == None
    && task.input.TravelInput? && task.input.query == packet.text
    && IsDestination(task.input.destination, packet.preference, "未指定目的地")
    && task.key == Some(IdempotencyKey(packet.ctx, packet.itin, MockTravel, task.input))
  }

  predicate AddsTask(db: SessionDb, db': SessionDb, packet: Packet, id: TaskId) {
    && id !in db.tasks && id in db'.tasks && IsPlanned(db'.tasks[id], packet)
    && db' == db.(tasks := db.tasks[id := db'.tasks[id]], lastSeq := db.lastSeq + 1, outbox := db'.outbox)
    && db'.outbox == db.outbox + [EventRow(
         db'.lastSeq, TaskQueued(id, packet.turn, packet.ctx, packet.pref, packet.itin, MockTravel), KeyTask(id, Queued))]
  }

  predicate IsFor(task: Task, packet: Packet) {
    task.turn == Some(packet.turn) && task.itin == Some(packet.itin)
  }

  /** The turn has a task with the packet's target already. */
  predicate IsPlannedAlready(db: SessionDb, packet: Packet) {
    exists t :: t in db.tasks && IsFor(db.tasks[t], packet)
  }

  ghost predicate TextsFit(l: IV.Limits, preference: Payload, text: string) {
    && |text| <= l.maxStringLength && l.maxDepth >= 1 && l.maxItems >= 3 && l.maxKeyLength >= 11
    && (forall d :: IsDestination(d, preference, "未指定目的地") ==> |d| <= l.maxStringLength)
  }

  lemma PlannedInputFits(l: IV.Limits, packet: Packet)
    ensures IV.Validate(l, InputJson(PlannedInput(packet.preference, packet.text)), 0).Accepted? <==> TextsFit(l, packet.preference, packet.text)
  {
    var d := Destination(packet.preference, UNSPECIFIED_DESTINATION);
    InputFits(l, d, packet.text);
    assert IsDestination(d, packet.preference, "未指定目的地");
  }

  /** A task of the packet's turn and target is exactly one with the packet's key. */
  lemma SameTaskSameKey(db: SessionDb, packet: Packet)
    requires Inv(db) && PacketOk(db, packet) && db.ctx == packet.ctx
    ensures ViewOf(db).pref == packet.pref
    ensures IsPlannedAlready(db, packet) <==> HasTaskKey(db, PlanKey(packet, Decide(packet).plans[0]))
  {
    PacketPreference(db, packet);
    if IsPlannedAlready(db, packet) {
      var t :| t in db.tasks && IsFor(db.tasks[t], packet);
      SameTargetSameKey(db, packet, t);
    }
    if HasTaskKey(db, PlanKey(packet, Decide(packet).plans[0])) {
      var t :| t in db.tasks && db.tasks[t].key == Some(PlanKey(packet, Decide(packet).plans[0]));
      CurrentTaskIsOfTurn(db, packet, t);
    }
  }

  lemma PacketPreference(db: SessionDb, packet: Packet)
    requires Inv(db) && PacketOk(db, packet) && db.ctx == packet.ctx
    ensures ViewOf(db).pref == packet.pref && packet.turn in ViewOf(db).turns && IsUser(ViewOf(db), packet.turn)
    ensures ViewOf(db).turns[packet.turn].ctx == ViewOf(db).ctx
  {
    PacketMatchesTurn(db, packet);
    InvIsSound(db);
    assert Holds(Counters, db) && Holds(Turns, db);
  }

  lemma CurrentTaskIsOfTurn(db: SessionDb, packet: Packet, t: TaskId)
    requires Inv(db) && PacketOk(db, packet) && db.ctx == packet.ctx && t in db.tasks
    requires db.tasks[t].key == Some(PlanKey(packet, Decide(packet).plans[0]))
    ensures IsFor(db.tasks[t], packet)
  {
    TaskMatchesView(db, t);
    PacketPreference(db, packet);
    InvIsSound(db);
    OneTurnPerContext(ViewOf(db), ViewOf(db).tasks[t].turn, packet.turn);
  }

  /** The packet is of the current context and itinerary, its task is not there yet, and nothing speaks against it. */
  ghost predicate IsDue(l: IV.Limits, db: SessionDb, packet: Packet, id: TaskId) {
    && packet.ctx == db.ctx && packet.itin == |db.itineraries| && TextsFit(l, packet.preference, packet.text)
    && !IsPlannedAlready(db, packet) && id !in db.tasks
  }

  lemma CreateTells(l: IV.Limits, db: SessionDb, packet: Packet, id: TaskId)
    requires !KeyTaken(db.outbox, KeyTask(id, Queued)) || id in db.tasks
    ensures var r, plan := CreateOne(l, db, packet, Decide(packet).plans[0], id), Decide(packet).plans[0];
            if TextsFit(l, packet.preference, packet.text) && !HasTaskKey(db, PlanKey(packet, plan)) && id !in db.tasks
            then r.Commit? && AddsTask(db, r.db, packet, id)
            else r.Commit? ==> r.db == db
  {
    PlannedInputFits(l, packet);
  }

  lemma PlanTells(l: IV.Limits, db: SessionDb, packet: Packet, id: TaskId)
    requires Inv(db) && PacketOk(db, packet)
    ensures var r := CreateTasks(l, db, packet, Decide(packet), [id]);
            if IsDue(l, db, packet, id) then r.Commit? && AddsTask(db, r.db, packet, id)
            else r.Commit? ==> r.db == db
  {
    ActiveIsLatest(db);
    CurrentIsCount(db);
    if packet.ctx == db.ctx {
      SameTaskSameKey(db, packet);
    }
    if PacketIsCurrent(db, packet, Decide(packet)) {
      CreateTasksIsCreateOne(l, db, packet, id);
      NewIdIsFree(db, id);
      CreateTells(l, db, packet, id);
    }
  }

  lemma PlanShape(w: World, packet: Packet, newTask: TaskId)
    requires packet in w.packets
    ensures var r := CreateTasks(w.limits, w.db, packet, Decide(packet), [newTask]);
            Do(w, PlanMessage(packet, newTask)) == w.(db := if r.Commit? then r.db else w.db)
  {}

  /** A plan message of the current context and itinerary adds the task it plans, unless the turn has it already,
    a text is too long or the drawn identifier is taken.  Any other plan message does nothing. */
  lemma PlanIsCarriedOut(w: World, packet: Packet, newTask: TaskId)
    requires Reachable(w) && packet in w.packets
    ensures var w' := Do(w, PlanMessage(packet, newTask));
            && w' == w.(db := w'.db)
            && if IsDue(w.limits, w.db, packet, newTask) then AddsTask(w.db, w'.db, packet, newTask) else w'.db == w.db
  {
    ReachableInv(w);
    assert PacketOk(w.db, packet);
    PlanShape(w, packet, newTask);
    PlanTells(w.limits, w.db, packet, newTask);
  }

  lemma NewIdIsFree(db: SessionDb, id: TaskId)
    requires Inv(db)
    ensures id !in db.tasks ==> !KeyTaken(db.outbox, KeyTask(id, Queued))
  {
    assert Holds(TaskKeys, db) && Holds(Tasks, db);
  }

  // ---------- Runners ----------

  function EndEvent(id: TaskId, task: Task, status: TaskStatus): EventBody {
    if status == Failed then TaskMoved(id, Failed, None, None) else TaskMoved(id, status, task.turn, task.ctx)
  }

  /** The task takes a status and a result, its tool call a status and an output, and the log tells of it; nothing
    else changes. */
  predicate Ends(
    db: SessionDb, db': SessionDb, id: TaskId, status: TaskStatus, callStatus: CallStatus, output: Option<ToolOutput>)
  {
    && id in db.tasks
    && db'.outbox == db.outbox + [EventRow(db.lastSeq + 1, EndEvent(id, db.tasks[id], status), KeyTask(id, status))]
    && db'.tasks == db.tasks[id := db.tasks[id].(status := status, result := output)]
    && db' == db.(tasks := db'.tasks, calls := db'.calls, lastSeq := db.lastSeq + 1, outbox := db'.outbox)
    && db'.calls.Keys == db.calls.Keys
    && forall c :: c in db.calls ==>
         db'.calls[c] == if db.calls[c].task == id then db.calls[c].(status := callStatus, output := output) else db.calls[c]
  }

  lemma CallStands(db: SessionDb, id: TaskId, c: CallId)
    requires Inv(db) && id in db.tasks && c in db.calls && db.calls[c].task == id
    ensures CallFits(db.calls[c], db.tasks[id]) && forall d :: d in db.calls && db.calls[d].task == id ==> d == c
  {
    assert Holds(Calls, db);
    assert CallOk(db.tasks, db.calls[c]);
  }

  lemma NoResultYet(db: SessionDb, id: TaskId)
    requires Inv(db) && id in db.tasks && !db.tasks[id].status.Succeeded? && !db.tasks[id].status.Discarded?
    ensures db.tasks[id].result.None? && db.tasks[id] == db.tasks[id].(result := None)
  {
    TaskMatchesView(db, id);
  }

  /** A runner's finished call is its task's only one. */
  lemma FinishEnds(db: SessionDb, id: TaskId, call: Option<CallId>, status: CallStatus, output: Option<ToolOutput>)
    requires Inv(db) && id in db.tasks && OwnsCall(db, id, call)
    ensures var calls := FinishCall(db.calls, call, status, output);
            && calls.Keys == db.calls.Keys
            && forall c :: c in db.calls ==>
                 calls[c] == if db.calls[c].task == id then db.calls[c].(status := status, output := output) else db.calls[c]
  {
    CallStands(db, id, call.value);
  }

  lemma CancelEnds(db: SessionDb, id: TaskId, calls: map<CallId, ToolCall>, callStatus: CallStatus)
    requires Inv(db) && id in db.tasks && db.tasks[id].status == CancelRequested && calls.Keys == db.calls.Keys
    requires forall c :: c in db.calls ==>
               calls[c] == if db.calls[c].task == id then db.calls[c].(status := callStatus, output := None) else db.calls[c]
    ensures Ends(db, MoveTask(db.(calls := calls), id, Cancelled), id, Cancelled, callStatus, None)
  {
    MoveAppends(db, id, Cancelled);
    NoResultYet(db, id);
  }

  lemma MarkTells(db: SessionDb, id: TaskId)
    requires Inv(db) && id in db.tasks
    ensures if db.tasks[id].status == CancelRequested then Ends(db, MarkCancelled(db, id), id, Cancelled, CallCancelled, None)
            else MarkCancelled(db, id) == db
  {
    if db.tasks[id].status == CancelRequested {
      RequestedHasRunningCall(db, id);
      CancelEnds(db, id, CancelOpenCalls(db.calls, id), CallCancelled);
    }
  }

  lemma CommitRunShape(w: World, run: RunId, seen: bool, acknowledged: bool)
    requires CommitReady(w, run, seen)
    ensures Do(w, CommitRun(run, seen, acknowledged)) == Committed(w, RunResult(w, run, seen), run, acknowledged)
  {}

  lemma CommitTells(db: SessionDb, id: TaskId, call: Option<CallId>, output: ToolOutput, cancelSeen: bool)
    requires Inv(db) && Uncommitted(db, id) && OwnsCall(db, id, call)
    requires cancelSeen ==> db.tasks[id].ctx != Some(db.ctx)
    ensures var db' := CommitResult(db, id, call, output, cancelSeen);
            if db.tasks[id].ctx == Some(db.ctx) then Ends(db, db', id, Succeeded, CallSucceeded, Some(output))
            else Ends(db, db', id, Discarded, CallDiscarded, Some(output))
  {
    CommitShape(db, id, call, output, cancelSeen);
    FinishEnds(db, id, call, if db.tasks[id].ctx == Some(db.ctx) then CallSucceeded else CallDiscarded, Some(output));
  }

  lemma FailTells(db: SessionDb, id: TaskId, call: Option<CallId>)
    requires Inv(db) && id in db.tasks && OwnsCall(db, id, call) && !db.tasks[id].status.Queued? && !db.tasks[id].status.Failed?
    ensures var db' := FailTask(db, id, call);
            match db.tasks[id].status
            case Running => Ends(db, db', id, Failed, CallFailed, None)
            case CancelRequested => Ends(db, db', id, Cancelled, CallCancelled, None)
            case _ => db' == db
  {
    if db.tasks[id].status.Running? {
      MoveAppends(db, id, Failed);
      NoResultYet(db, id);
      FinishEnds(db, id, call, CallFailed, None);
    } else if db.tasks[id].status.CancelRequested? {
      FinishEnds(db, id, call, CallCancelled, None);
      CancelEnds(db, id, FinishCall(db.calls, call, CallCancelled, None), CallCancelled);
    }
  }

  /** What a claim writes: the task runs, for the first time, and has a running tool call on its input. */
  predicate Claims(db: SessionDb, db': SessionDb, id: TaskId, newCall: CallId) {
    && id in db.tasks && db.tasks[id].ctx.Some? && db.tasks[id].pref.Some?
    && (var task := db.tasks[id];
        && db'.tasks == db.tasks[id := task.(status := Running, attempt := 1)]
        && db'.calls == db.calls[newCall :=
             ToolCall(id, task.ctx.value, task.pref.value, MockTravel, CallRunning, task.input, None)]
        && db'.outbox == db.outbox + [EventRow(db.lastSeq + 1, TaskMoved(id, Running, task.turn, task.ctx), KeyTask(id, Running))])
    && db' == db.(tasks := db'.tasks, calls := db'.calls, lastSeq := db.lastSeq + 1, outbox := db'.outbox)
  }

  lemma ClaimTells(db: SessionDb, id: TaskId, newCall: CallId)
    requires Inv(db) && id in db.tasks
    ensures var r := ClaimTask(db, id, newCall);
            match db.tasks[id].status
            case Queued =>
              if newCall in db.calls then r.Abort?
              else
                && r.Commit? && Claims(db, r.db, id, newCall)
                && r.value == Claimed(Some(newCall), MockTravel, db.tasks[id].input)
            case CancelRequested => r.Commit? && r.value == NotClaimed && Ends(db, r.db, id, Cancelled, CallRunning, None)
            case _ => r == Commit(db, NotClaimed)
  {
    TaskMatchesView(db, id);
    if db.tasks[id].status.Queued? {
      UnclaimedHasNoCall(db, id);
    } else if db.tasks[id].status.CancelRequested? {
      RequestedHasRunningCall(db, id);
      assert db.(calls := db.calls) == db;
      CancelEnds(db, id, db.calls, CallRunning);
    }
  }

  /** A task message starts a runner for a queued task, settles a request to cancel, and otherwise does nothing. */
  lemma ClaimIsCarriedOut(w: World, id: TaskId, run: RunId, newCall: CallId)
    requires Reachable(w) && run !in w.runners
    ensures var w' := Do(w, TaskMessage(id, run, newCall));
            if id in w.db.tasks && w.db.tasks[id].status == Queued && newCall !in w.db.calls then
              && Claims(w.db, w'.db, id, newCall)
              && w' == w.(db := w'.db,
                          runners := w.runners[run := Runner(id, Some(newCall), MockTravel, CheckKey, None, false)])
            else if id in w.db.tasks && w.db.tasks[id].status == CancelRequested then
              Ends(w.db, w'.db, id, Cancelled, CallRunning, None) && w' == w.(db := w'.db)
            else w' == w
  {
    ReachableInv(w);
    if id in w.db.tasks {
      ClaimTells(w.db, id, newCall);
    }
  }

  /** Where a runner stands after its own transaction. */
  predicate MovesOn(w: World, w': World, run: RunId, acknowledged: bool) {
    && run in w.runners
    && w' == w.(db := w'.db, runners := if acknowledged then w.runners - {run}
                                        else w.runners[run := w.runners[run].(pc := Failing)])
  }

  /** A runner that gives up cancels its task and the tool call, if the task is still asked to cancel. */
  lemma MarkIsCarriedOut(w: World, run: RunId, acknowledged: bool)
    requires Reachable(w) && run in w.runners && w.runners[run].pc == Marking
    ensures var w', id := Do(w, Mark(run, acknowledged)), w.runners[run].task;
            && MovesOn(w, w', run, acknowledged) && id in w.db.tasks
            && if w.db.tasks[id].status == CancelRequested then Ends(w.db, w'.db, id, Cancelled, CallCancelled, None)
               else w'.db == w.db
  {
    ReachableInv(w);
    assert RunnerOk(w.db, w.runners[run]);
    MarkTells(w.db, w.runners[run].task);
  }

  /** A result is accepted exactly when its task is of the session's context, and otherwise kept as discarded. */
  lemma CommitIsCarriedOut(w: World, run: RunId, seen: bool, acknowledged: bool)
    requires Reachable(w) && CommitReady(w, run, seen)
    ensures var w', id, output := Do(w, CommitRun(run, seen, acknowledged)), w.runners[run].task, w.runners[run].output;
            && MovesOn(w, w', run, acknowledged) && id in w.db.tasks
            && if w.db.tasks[id].ctx == Some(w.db.ctx) then Ends(w.db, w'.db, id, Succeeded, CallSucceeded, output)
               else Ends(w.db, w'.db, id, Discarded, CallDiscarded, output)
  {
    ReachableInv(w);
    var r := w.runners[run];
    assert RunnerOk(w.db, r);
    CommitRunShape(w, run, seen, acknowledged);
    CommitTells(w.db, r.task, r.call, r.output.value, r.cancelSeen || seen);
  }

  /** The failure handler fails a running task, cancels one that is asked to cancel, and leaves any other alone. */
  lemma FailIsCarriedOut(w: World, run: RunId)
    requires Reachable(w) && run in w.runners && w.runners[run].pc == Failing
    ensures var w', id := Do(w, Fail(run)), w.runners[run].task;
            && MovesOn(w, w', run, true) && id in w.db.tasks
            && match w.db.tasks[id].status
               case Running => Ends(w.db, w'.db, id, Failed, CallFailed, None)
               case CancelRequested => Ends(w.db, w'.db, id, Cancelled, CallCancelled, None)
               case _ => w'.db == w.db
  {
    ReachableInv(w);
    assert RunnerOk(w.db, w.runners[run]);
    FailTells(w.db, w.runners[run].task, w.runners[run].call);
  }

  predicate IsRunnerAt(w: World, run: RunId, pc: Pc) {
    run in w.runners && w.runners[run].pc == pc
  }

  predicate IsAskedToCancel(w: World, run: RunId)
    requires run in w.runners
  {
    w.runners[run].task in w.db.tasks && w.db.tasks[w.runners[run].task].status == CancelRequested
  }

  lemma RequestsLeaveRunners(w: World, s: Step)
    ensures DoRequest(w, s).runners == w.runners
  {}

  lemma MessagesAddRunners(w: World, s: Step, run: RunId)
    ensures run in w.runners ==> run in DoMessage(w, s).runners && DoMessage(w, s).runners[run] == w.runners[run]
    ensures run in DoMessage(w, s).runners && run !in w.runners ==> DoMessage(w, s).runners[run].pc == CheckKey
  {}

  predicate Starts(w: World, s: Step, run: RunId) {
    s == ReadRow(run) && IsRunnerAt(w, run, CheckRow) && !IsAskedToCancel(w, run)
  }

  predicate GivesUp(w: World, s: Step, run: RunId) {
    || (s == ReadKey(run, true) && IsRunnerAt(w, run, CheckKey) && w.runners[run].task in w.cancelKeys)
    || (s == ReadRow(run) && IsRunnerAt(w, run, CheckRow) && IsAskedToCancel(w, run))
  }

  lemma RunnersLook(w: World, s: Step, run: RunId)
    ensures IsRunnerAt(DoRunner(w, s), run, Executing) && !IsRunnerAt(w, run, Executing) <==> Starts(w, s, run)
    ensures IsRunnerAt(DoRunner(w, s), run, Marking) && !IsRunnerAt(w, run, Marking) <==> GivesUp(w, s, run)
  {}

  /** A runner starts its tool exactly when it reads a row that is not asked to cancel, and gives up exactly when it
    sees its mark or reads a row that is.  A row that is cancelled already does not keep it from starting. */
  lemma ExecutionIsChecked(w: World, s: Step, run: RunId)
    ensures IsRunnerAt(Do(w, s), run, Executing) && !IsRunnerAt(w, run, Executing) <==> Starts(w, s, run)
    ensures IsRunnerAt(Do(w, s), run, Marking) && !IsRunnerAt(w, run, Marking) <==> GivesUp(w, s, run)
  {
    RequestsLeaveRunners(w, s);
    MessagesAddRunners(w, s, run);
    RunnersLook(w, s, run);
  }

  predicate Arrives(w: World, w': World, run: RunId, pc: Pc) {
    IsRunnerAt(w', run, pc) && !IsRunnerAt(w, run, pc)
  }

  /** The last look before a commit: the mark, and then the row unless the mark was seen. */
  predicate LooksAgain(w: World, s: Step, run: RunId) {
    || (s == ReadKey(run, true) && IsRunnerAt(w, run, RecheckKey) && w.runners[run].task in w.cancelKeys)
    || (s == ReadRow(run) && IsRunnerAt(w, run, RecheckRow))
  }

  lemma RunnersLookAgain(w: World, s: Step, run: RunId)
    ensures var w' := DoRunner(w, s);
            && (Arrives(w, w', run, RecheckKey) <==>
                  s.RunTool? && s.run == run && IsRunnerAt(w, run, Executing) && !w.runners[run].taskType.OtherType?)
            && (Arrives(w, w', run, RecheckKey) ==> w'.runners[run].output == Some(s.output))
            && (Arrives(w, w', run, RecheckRow) <==> s == ReadKey(run, false) && IsRunnerAt(w, run, RecheckKey))
            && (Arrives(w, w', run, Committing) <==> LooksAgain(w, s, run))
            && (Arrives(w, w', run, Committing) ==>
                  && w'.runners[run].cancelSeen == (s == ReadKey(run, true) || IsAskedToCancel(w, run))
                  && w'.runners[run].output == w.runners[run].output)
  {}

  /** A result is looked at again before it is committed: for the mark, and then for the row unless the mark was seen;
    the runner takes along the tool's output and what it saw. */
  lemma ResultIsRechecked(w: World, s: Step, run: RunId)
    ensures var w' := Do(w, s);
            && (Arrives(w, w', run, RecheckKey) <==>
                  s.RunTool? && s.run == run && IsRunnerAt(w, run, Executing) && !w.runners[run].taskType.OtherType?)
            && (Arrives(w, w', run, RecheckKey) ==> w'.runners[run].output == Some(s.output))
            && (Arrives(w, w', run, RecheckRow) <==> s == ReadKey(run, false) && IsRunnerAt(w, run, RecheckKey))
            && (Arrives(w, w', run, Committing) <==> LooksAgain(w, s, run))
            && (Arrives(w, w', run, Committing) ==>
                  && w'.runners[run].cancelSeen == (s == ReadKey(run, true) || IsAskedToCancel(w, run))
                  && w'.runners[run].output == w.runners[run].output)
  {
    RequestsLeaveRunners(w, s);
    MessagesAddRunners(w, s, run);
    RunnersLookAgain(w, s, run);
  }

  /** What may go wrong at any time: a crashed runner is gone, one that meets an exception goes to the failure handler,
    and a mark may be lost.  The database is left alone. */
  lemma FaultsAreTaken(w: World, run: RunId, id: TaskId)
    ensures Do(w, Crash(run)) == w.(runners := w.runners - {run})
    ensures run in w.runners ==> Do(w, Raise(run)) == w.(runners := w.runners[run := w.runners[run].(pc := Failing)])
    ensures Do(w, LoseCancelKey(id)) == w.(cancelKeys := w.cancelKeys - {id})
  {}

  // ---------- Composing ----------

  /** The turn has a result in the session's context. */
  predicate HasResult(db: SessionDb, turn: TurnId, id: TaskId) {
    && id in db.tasks && db.tasks[id].turn == Some(turn) && db.tasks[id].ctx == Some(db.ctx)
    && db.tasks[id].status == Succeeded && db.tasks[id].pref.Some? && db.tasks[id].result.Some?
  }

  /** What a reply tells, field by field. */
  predicate TellsTask(context: ReplyContext, db: SessionDb, id: TaskId, c: CallId, d: string)
    requires id in db.tasks && db.tasks[id].pref.Some? && db.tasks[id].result.Some?
  {
    context == ReplyContext(
      "已根据当前偏好整理 " + d + " 的版本化旅行建议。", db.ctx, db.tasks[id].pref.value, [id],
      [db.tasks[id].result.value], |db.itineraries| + 1, [c])
  }

  /** The new itinerary version, field by field. */
  ghost predicate HoldsTask(row: Itinerary, db: SessionDb, id: TaskId, c: CallId, d: string)
    requires id in db.tasks && db.tasks[id].pref.Some? && db.tasks[id].result.Some?
  {
    && row == Itinerary(Confirmed, db.ctx, db.tasks[id].pref.value, Content(d, row.content.items, db.ctx), [id])
    && Lists(row.content.items, c, db.tasks[id].result.value)
  }

  predicate SupersedesLast(before: map<nat, Itinerary>, after: map<nat, Itinerary>) {
    && after.Keys == before.Keys + {|before| + 1} && |before| + 1 !in before
    && forall x :: x in before ==>
         after[x] == if x == |before| then before[x].(status := Replaced) else before[x]
  }

  /** The two events of a reply. */
  function ReplyEvents(db: SessionDb, turn: TurnId, reply: TurnId, id: TaskId, c: CallId, context: ReplyContext): seq<EventRow> {
    var version := ItineraryConfirmed(context.itinerary, db.ctx, context.pref, [id], [c]);
    [EventRow(db.lastSeq + 1, version, KeyItinerary(turn, db.ctx)),
     EventRow(db.lastSeq + 2, ReplyCreated(reply, turn, db.ctx, context), KeyReply(turn, db.ctx))]
  }

  /** The next version is confirmed and the reply follows in the conversation, with one event each. */
  ghost predicate WritesReply(db: SessionDb, db': SessionDb, turn: TurnId, reply: TurnId, id: TaskId, c: CallId, d: string)
    requires id in db.tasks && db.tasks[id].pref.Some? && db.tasks[id].result.Some?
  {
    var n, pref := |db.itineraries|, db.tasks[id].pref.value;
    && c in db.calls && db.calls[c].task == id
    && pref in db.preferences && IsDestination(d, db.preferences[pref].payload, "当前目的地")
    && SupersedesLast(db.itineraries, db'.itineraries) && HoldsTask(db'.itineraries[n + 1], db, id, c, d)
    && reply in db'.turns && db'.turns[reply].reply.Some?
    && (var context := db'.turns[reply].reply.value;
        && TellsTask(context, db, id, c, d)
        && db'.turns == db.turns[reply :=
             Turn(|db.turns| + 1, AgentReply, Completed, db.ctx, Some(turn), "", Some(context), None)]
        && db'.outbox == db.outbox + ReplyEvents(db, turn, reply, id, c, context))
    && db' == db.(turns := db'.turns, itineraries := db'.itineraries, lastSeq := db.lastSeq + 2, outbox := db'.outbox)
  }

  lemma LastIsSuperseded(before: map<nat, Itinerary>, row: Itinerary)
    requires forall x :: x in before <==> 1 <= x <= |before|
    ensures SupersedesLast(before, Supersede(before, if |before| == 0 then None else Some(|before|))[|before| + 1 := row])
  {}

  lemma NextSupersedesLast(db: SessionDb, row: Itinerary)
    requires Inv(db)
    ensures SupersedesLast(db.itineraries, Supersede(db.itineraries, ConfirmedItinerary(db))[|db.itineraries| + 1 := row])
  {
    CurrentIsCount(db);
    ConfirmedIsLatest(db);
    ChainShape(db);
    LastIsSuperseded(db.itineraries, row);
  }

  /** The row that the transaction confirms, as the tables tell it. */
  lemma NewVersionHolds(db: SessionDb, turn: TurnId, id: TaskId, c: CallId, d: string)
    requires Inv(db) && HasResult(db, turn, id)
    requires c in db.calls && db.calls[c].task == id && db.calls[c].status == CallSucceeded
    ensures HoldsTask(Itinerary(Confirmed, db.ctx, db.tasks[id].pref.value, ItineraryContent(d, db.ctx, db.calls, [c]), [id]),
                      db, id, c, d)
  {
    CallHasResult(db, id, c);
    OneCallIsListed(db.calls, [c], c);
  }

  lemma ContextTellsTask(db: SessionDb, id: TaskId, c: CallId, d: string)
    requires id in db.tasks && db.tasks[id].pref.Some? && db.tasks[id].result.Some?
    requires c in db.calls && db.calls[c].output == db.tasks[id].result
    ensures TellsTask(ReplyContext(ReplyMessage(d), db.ctx, db.tasks[id].pref.value, [id], Outputs(db.calls, [c]),
                                   |db.itineraries| + 1, [c]), db, id, c, d)
  {
    assert Outputs(db.calls, [c]) == [OutputOf(db.calls[c])];
  }

  /** What `ConfirmAndReply` writes, table by table. */
  lemma ConfirmShape(
    db: SessionDb, turn: TurnId, reply: TurnId, pref: nat, target: nat, id: TaskId, c: CallId, d: string,
    context: ReplyContext)
    requires pref in db.preferences && c in db.calls
    requires d == Destination(db.preferences[pref].payload, CURRENT_DESTINATION)
    requires context == ReplyContext(ReplyMessage(d), db.ctx, pref, [id], Outputs(db.calls, [c]), target + 1, [c])
    ensures ConfirmAndReply(db, turn, db.ctx, reply, pref, target, [id], [c]).db
            == db.(turns := db.turns[reply := Turn(MaxSequence(db.turns) + 1, AgentReply, Completed, db.ctx, Some(turn), "",
                                                   Some(context), None)],
                   itineraries := Supersede(db.itineraries, ConfirmedItinerary(db))
                     [target + 1 := Itinerary(Confirmed, db.ctx, pref, ItineraryContent(d, db.ctx, db.calls, [c]), [id])],
                   lastSeq := db.lastSeq + 2, outbox := db.outbox + ReplyEvents(db, turn, reply, id, c, context))
  {
    var e1 := EventRow(db.lastSeq + 1, ItineraryConfirmed(target + 1, db.ctx, pref, [id], [c]), KeyItinerary(turn, db.ctx));
    var e2 := EventRow(db.lastSeq + 2, ReplyCreated(reply, turn, db.ctx, context), KeyReply(turn, db.ctx));
    assert db.outbox + [e1] + [e2] == db.outbox + [e1, e2];
  }

  lemma CurrentPreference(db: SessionDb, turn: TurnId, id: TaskId)
    requires Inv(db) && HasResult(db, turn, id) && !KeyTaken(db.outbox, KeyReply(turn, db.ctx))
    ensures db.tasks[id].pref.value == ViewOf(db).pref && ViewOf(db).pref in db.preferences
    ensures |db.itineraries| == |ViewOf(db).chain|
  {
    OneSource(db, turn, id, id);
    ActiveIsLatest(db);
    CurrentIsCount(db);
    ConfirmedIsLatest(db);
  }

  /** The pieces, put together. */
  lemma ShapeReplies(
    db: SessionDb, db': SessionDb, turn: TurnId, reply: TurnId, id: TaskId, c: CallId, d: string,
    context: ReplyContext, row: Itinerary)
    requires HasResult(db, turn, id) && c in db.calls && db.calls[c].task == id
    requires db.tasks[id].pref.value in db.preferences
    requires d == Destination(db.preferences[db.tasks[id].pref.value].payload, CURRENT_DESTINATION)
    requires TellsTask(context, db, id, c, d) && HoldsTask(row, db, id, c, d)
    requires db'.turns == db.turns[reply :=
               Turn(|db.turns| + 1, AgentReply, Completed, db.ctx, Some(turn), "", Some(context), None)]
    requires SupersedesLast(db.itineraries, db'.itineraries) && db'.itineraries[|db.itineraries| + 1] == row
    requires db' == db.(turns := db'.turns, itineraries := db'.itineraries, lastSeq := db.lastSeq + 2,
                        outbox := db.outbox + ReplyEvents(db, turn, reply, id, c, context))
    ensures WritesReply(db, db', turn, reply, id, c, d)
  {}

  lemma ConfirmTells(db: SessionDb, turn: TurnId, id: TaskId, c: CallId, reply: TurnId, d: string)
    requires Inv(db) && HasResult(db, turn, id)
    requires db.tasks[id].pref.value == ViewOf(db).pref && ViewOf(db).pref in db.preferences
    requires d == Destination(db.preferences[ViewOf(db).pref].payload, CURRENT_DESTINATION)
    requires c in db.calls && db.calls[c].task == id && db.calls[c].status == CallSucceeded
    ensures WritesReply(db, ConfirmAndReply(db, turn, db.ctx, reply, ViewOf(db).pref, |db.itineraries|, [id], [c]).db,
                    turn, reply, id, c, d)
  {
    var pref, n := ViewOf(db).pref, |db.itineraries|;
    var context := ReplyContext(ReplyMessage(d), db.ctx, pref, [id], Outputs(db.calls, [c]), n + 1, [c]);
    var row := Itinerary(Confirmed, db.ctx, pref, ItineraryContent(d, db.ctx, db.calls, [c]), [id]);
    CallHasResult(db, id, c);
    LastPosition(db);
    ContextTellsTask(db, id, c, d);
    NewVersionHolds(db, turn, id, c, d);
    NextSupersedesLast(db, row);
    ConfirmShape(db, turn, reply, pref, n, id, c, d, context);
    ShapeReplies(db, ConfirmAndReply(db, turn, db.ctx, reply, pref, n, [id], [c]).db, turn, reply, id, c, d, context, row);
  }

  lemma ComposeTells(db: SessionDb, turn: TurnId, id: TaskId, c: CallId, reply: TurnId) returns (d: string)
    requires Inv(db) && HasResult(db, turn, id) && reply !in db.turns && !KeyTaken(db.outbox, KeyReply(turn, db.ctx))
    requires PlanCompose(db, turn, db.ctx) == Build(ViewOf(db).pref, {id}, {c}, CurrentItinerary(db))
    requires c in db.calls && db.calls[c].task == id && db.calls[c].status == CallSucceeded
    ensures var r := ComposeReply(db, turn, db.ctx, reply, [id], [c]);
            r.Commit? && WritesReply(db, r.db, turn, reply, id, c, d)
  {
    CurrentPreference(db, turn, id);
    d := Destination(db.preferences[ViewOf(db).pref].payload, CURRENT_DESTINATION);
    ReplyIsBuilt(db, turn, id, c, reply);
    ComposeIsConfirm(db, turn, db.ctx, reply, id, c);
    ConfirmTells(db, turn, id, c, reply, d);
  }

  /** The turn is to be answered: it has a result in the session's context, and no reply yet. */
  predicate AwaitsReply(db: SessionDb, turn: TurnId, ctx: nat) {
    && ctx == db.ctx && (exists id :: id in db.tasks && HasResult(db, turn, id))
    && !KeyTaken(db.outbox, KeyReply(turn, ctx))
  }

  ghost predicate IsReplied(db: SessionDb, db': SessionDb, turn: TurnId, reply: TurnId) {
    exists id, c, d :: HasResult(db, turn, id) && WritesReply(db, db', turn, reply, id, c, d)
  }

  lemma SucceededHasResult(db: SessionDb, turn: TurnId, id: TaskId)
    requires Inv(db) && id in db.tasks && db.tasks[id].status == Succeeded
    requires db.tasks[id].turn == Some(turn) && db.tasks[id].ctx == Some(db.ctx)
    ensures HasResult(db, turn, id)
  {
    TaskMatchesView(db, id);
  }

  /** A compose message writes the reply of a turn that awaits one, from its result, and otherwise changes nothing. */
  lemma ComposeIsCarriedOut(
    w: World, turn: TurnId, ctx: nat, newTurn: TurnId, taskRows: seq<TaskId>, callRows: seq<CallId>)
    requires Reachable(w) && ComposeRows(PlanCompose(w.db, turn, ctx), taskRows, callRows)
    ensures var w' := Do(w, ComposeMessage(turn, ctx, newTurn, taskRows, callRows));
            && w' == w.(db := w'.db)
            && if AwaitsReply(w.db, turn, ctx) && newTurn !in w.db.turns then IsReplied(w.db, w'.db, turn, newTurn)
               else w'.db == w.db
  {
    ReachableInv(w);
    ComposeDecides(w.db, turn, ctx, newTurn, taskRows, callRows);
  }

  lemma ComposeDecides(
    db: SessionDb, turn: TurnId, ctx: nat, newTurn: TurnId, taskRows: seq<TaskId>, callRows: seq<CallId>)
    requires Inv(db) && ComposeRows(PlanCompose(db, turn, ctx), taskRows, callRows)
    ensures var r := ComposeReply(db, turn, ctx, newTurn, taskRows, callRows);
            && (r.Commit? ==> r.value != ItineraryConflict)
            && if AwaitsReply(db, turn, ctx) && newTurn !in db.turns then r.Commit? && IsReplied(db, r.db, turn, newTurn)
               else r.Commit? ==> r.db == db
  {
    NeverConflicts(db, turn, ctx, newTurn, taskRows, callRows);
    if AwaitsReply(db, turn, ctx) {
      var id :| id in db.tasks && HasResult(db, turn, id);
      var c := PlanIsBuild(db, turn, id);
      SingletonRows(taskRows, id);
      SingletonRows(callRows, c);
      if newTurn !in db.turns {
        var d := ComposeTells(db, turn, id, c, newTurn);
      }
    } else if PlanCompose(db, turn, ctx).Build? {
      var id, c := BuildShape(db, turn, ctx);
      SucceededHasResult(db, turn, id);
    }
  }
}
