/** Every step of a run keeps the world invariant, so it holds in every reachable world. */
module RunSafety {
  import opened Rows
  import opened Transactions
  import opened History
  import opened Refinement
  import opened TaskSteps
  import opened InterruptSteps
  import opened ReplySteps
  import opened Runs
  import opened RunInvariant
  import IV = InputValidation

  // ---------- Requests ----------

  lemma AnswerKeeps(w: World, req: RequestId, phase: Phase)
    requires WorldInv(w) && req in w.requests && RequestOk(w.db, w.requests[req].(phase := phase))
    ensures WorldInv(Answer(w, req, phase))
  {
    Open(w);
    var w' := Answer(w, req, phase);
    forall r | r in w'.requests ensures RequestOk(w'.db, w'.requests[r]) {
      if r != req {
        assert RequestOk(w.db, w.requests[r]);
      }
    }
    assert RunnersOk(w') && MarksOk(w') && PacketsOk(w');
    Close(w');
  }

  /** A transaction that appends one row under the command's key answers what that row says. */
  lemma AcceptedKeeps(w: World, req: RequestId, response: Response)
    requires WorldInv(w) && req in w.requests && w.db.outbox != []
    requires w.db.outbox[|w.db.outbox| - 1].key == CommandKey(w.requests[req].command)
    requires response == ResponseOf(w.db.outbox[|w.db.outbox| - 1])
    ensures WorldInv(Answer(w, req, Done(response)))
  {
    Open(w);
    assert Holds(Log, w.db);
    AnswerKeeps(w, req, Done(response));
  }

  lemma FinalizedKeeps(w: World, w': World, id: TurnId, text: string, e: string)
    requires WorldInv(w) && FinalizeTurn(w.db, id, text, e).Commit?
    requires w' == w.(db := FinalizeTurn(w.db, id, text, e).db)
    ensures WorldInv(w')
  {
    Open(w);
    FinalizeTurnKeeps(w.db, id, text, e);
    FinalizeTurnGrows(w.db, id, text, e);
    RunnersCarry(w, w');
    TransactionCarries(w, w');
  }

  lemma FinalizeKeeps(w: World, req: RequestId, newTurn: TurnId)
    requires WorldInv(w) && req in w.requests && w.requests[req].command.Finalize?
    ensures WorldInv(ExecuteCommand(w, req, newTurn, []))
  {
    Open(w);
    var Finalize(e, text) := w.requests[req].command;
    var r := FinalizeTurn(w.db, newTurn, text, e);
    if r.Abort? {
      AnswerKeeps(w, req, Done(Refused(r.error)));
    } else {
      var w1 := w.(db := r.db);
      FinalizedKeeps(w, w1, newTurn, text, e);
      AcceptedKeeps(w1, req, FinalizedAs(r.value));
    }
  }

  lemma {:induction false} PatchesAppend(db: SessionDb, db': SessionDb, patches: seq<Payload>, patch: Payload)
    requires PatchesOk(db, patches) && |patches| >= 1 && ViewOf(db').pref == ViewOf(db).pref + 1
    requires |patches| in db.preferences
    requires PayloadsPersist(db.preferences, db'.preferences)
    requires db'.preferences.Keys == db.preferences.Keys + {|patches| + 1}
    requires db'.preferences[|patches| + 1].payload == db.preferences[|patches|].payload + patch
    ensures PatchesOk(db', patches + [patch])
  {
    var n := |patches|;
    var longer := patches + [patch];
    assert longer[..n] == patches && patches[..n] == patches;
    assert longer[..n + 1][..n] == longer[..n];
    forall x | x in db'.preferences
      ensures x <= n + 1 && db'.preferences[x].payload == Overlay(longer[..x])
    {
      if x <= n {
        assert x in db.preferences && longer[..x] == patches[..x];
      }
    }
  }

  /** The preference version of the log is the number of preference rows. */
  lemma VersionsCount(db: SessionDb, n: nat)
    requires Inv(db) && n >= 1 && forall x :: x in db.preferences <==> 1 <= x <= n
    ensures ViewOf(db).pref == n
  {
    assert Holds(Preferences, db) && Holds(Counters, db);
    assert n in db.preferences && ViewOf(db).pref in db.preferences;
  }

  /** The new version is the active payload with the patch laid over it. */
  lemma PatchedShape(db: SessionDb, baseCtx: nat, patch: Payload, source: Option<TurnId>, e: string)
    requires Inv(db) && UpdatePreference(db, baseCtx, patch, source, e).Commit?
    requires UpdatePreference(db, baseCtx, patch, source, e).value.Some?
    ensures var n, db' := ViewOf(db).pref, UpdatePreference(db, baseCtx, patch, source, e).db;
            && n >= 1 && n in db.preferences && (forall x :: x in db.preferences <==> 1 <= x <= n)
            && db'.preferences.Keys == db.preferences.Keys + {n + 1}
            && db'.preferences[n + 1].payload == db.preferences[n].payload + patch
  {
    ActiveIsLatest(db);
    assert Holds(Preferences, db) && Holds(Counters, db);
  }

  lemma PatchedPreferences(
    db: SessionDb, patches: seq<Payload>, baseCtx: nat, patch: Payload, source: Option<TurnId>, e: string)
    requires Inv(db) && PatchesOk(db, patches) && UpdatePreference(db, baseCtx, patch, source, e).Commit?
    requires UpdatePreference(db, baseCtx, patch, source, e).value.Some?
    ensures PatchesOk(UpdatePreference(db, baseCtx, patch, source, e).db, patches + [patch])
  {
    var db' := UpdatePreference(db, baseCtx, patch, source, e).db;
    PatchedShape(db, baseCtx, patch, source, e);
    UpdatePreferenceKeeps(db, baseCtx, patch, source, e);
    UpdatePreferenceGrows(db, baseCtx, patch, source, e);
    VersionsCount(db', |patches| + 1);
    PatchesAppend(db, db', patches, patch);
  }

  lemma PatchedKeeps(w: World, w': World, baseCtx: nat, patch: Payload, source: Option<TurnId>, e: string)
    requires WorldInv(w) && UpdatePreference(w.db, baseCtx, patch, source, e).Commit?
    requires UpdatePreference(w.db, baseCtx, patch, source, e).value.Some?
    requires w' == w.(db := UpdatePreference(w.db, baseCtx, patch, source, e).db, patches := w.patches + [patch])
    ensures WorldInv(w')
  {
    Open(w);
    PatchedPreferences(w.db, w.patches, baseCtx, patch, source, e);
    UpdatePreferenceKeeps(w.db, baseCtx, patch, source, e);
    UpdatePreferenceGrows(w.db, baseCtx, patch, source, e);
    RunnersCarry(w, w');
    RequestsCarry(w, w');
    MarksCarry(w, w');
    PacketsCarry(w, w');
    Close(w');
  }

  lemma PatchKeeps(w: World, req: RequestId)
    requires WorldInv(w) && req in w.requests && w.requests[req].command.Patch?
    ensures WorldInv(ExecuteCommand(w, req, 0, []))
  {
    Open(w);
    var Patch(e, baseCtx, patch, source) := w.requests[req].command;
    var r := UpdatePreference(w.db, baseCtx, patch, source, e);
    if r.Abort? {
      AnswerKeeps(w, req, Done(Refused(r.error)));
    } else if r.value.None? {
      AnswerKeeps(w, req, Missed);
    } else {
      var w1 := w.(db := r.db, patches := w.patches + [patch]);
      PatchedKeeps(w, w1, baseCtx, patch, source, e);
      AcceptedKeeps(w1, req, UpdatedAs(r.value.value));
    }
  }

  lemma {:induction false} RequestRowsAreMoves(db: SessionDb, turn: TurnId, rows: seq<TaskId>)
    ensures NoNewInterrupts(db.outbox, RequestAll(db, turn, rows).outbox)
  {
    if rows != [] {
      RequestRowsAreMoves(db, turn, rows[..|rows| - 1]);
    }
  }

  /** An interrupt adds one accepted event, and the tasks it lists belong to the context it leaves behind. */
  lemma InterruptMarks(w: World, w': World, turn: TurnId, reason: string, e: string, rows: seq<TaskId>)
    requires WorldInv(w) && Enumerates(rows, TasksToCancel(w.db, turn))
    requires RegisterInterrupt(w.db, turn, reason, e, rows).Commit?
    requires w' == w.(db := RegisterInterrupt(w.db, turn, reason, e, rows).db)
    ensures MarksOk(w')
  {
    Open(w);
    RegisterShape(w.db, turn, reason, e, rows);
    RegisterInterruptGrows(w.db, turn, reason, e, rows);
    RequestRowsAreMoves(w.db, turn, rows);
    var d := RequestAll(w.db, turn, rows);
    forall t | t in rows ensures Stale(w'.db, t) {
      assert t in TasksToCancel(w.db, turn);
    }
    forall t | t in w'.cancelKeys ensures Stale(w'.db, t) {
      StaysStale(w.db, w'.db, t);
    }
    forall i, t | 0 <= i < |w'.db.outbox| && w'.db.outbox[i].body.InterruptAccepted? && t in w'.db.outbox[i].body.cancelled
      ensures Stale(w'.db, t)
    {
      if i < |w.db.outbox| {
        assert w'.db.outbox[i] == w.db.outbox[i];
        StaysStale(w.db, w'.db, t);
      } else {
        assert i == |d.outbox|;
      }
    }
  }

  lemma InterruptedKeeps(w: World, w': World, turn: TurnId, reason: string, e: string, rows: seq<TaskId>)
    requires WorldInv(w) && Enumerates(rows, TasksToCancel(w.db, turn))
    requires RegisterInterrupt(w.db, turn, reason, e, rows).Commit?
    requires w' == w.(db := RegisterInterrupt(w.db, turn, reason, e, rows).db)
    ensures WorldInv(w')
  {
    Open(w);
    InterruptMarks(w, w', turn, reason, e, rows);
    RegisterInterruptKeeps(w.db, turn, reason, e, rows);
    RegisterInterruptGrows(w.db, turn, reason, e, rows);
    RegisterShape(w.db, turn, reason, e, rows);
    RequestAllChanges(w.db, turn, rows);
    RunnersCarry(w, w');
    RequestsCarry(w, w');
    PacketsCarry(w, w');
    SamePreferenceVersion(w.db, w'.db);
    Close(w');
  }

  lemma InterruptKeeps(w: World, req: RequestId, rows: seq<TaskId>)
    requires WorldInv(w) && req in w.requests && w.requests[req].command.Interrupt?
    ensures WorldInv(ExecuteCommand(w, req, 0, rows))
  {
    Open(w);
    var Interrupt(e, turn, reason) := w.requests[req].command;
    if Enumerates(rows, TasksToCancel(w.db, turn)) {
      var r := RegisterInterrupt(w.db, turn, reason, e, rows);
      if r.Abort? {
        AnswerKeeps(w, req, Done(Refused(r.error)));
      } else {
        var w1 := w.(db := r.db);
        InterruptedKeeps(w, w1, turn, reason, e, rows);
        RegisterShape(w.db, turn, reason, e, rows);
        AcceptedKeeps(w1, req, InterruptedAs(r.value));
      }
    }
  }

  lemma SubmitKeeps(w: World, req: RequestId, command: Command)
    requires WorldInv(w) && req !in w.requests
    ensures WorldInv(w.(requests := w.requests[req := Request(command, Fresh)]))
  {
    Open(w);
    var w' := w.(requests := w.requests[req := Request(command, Fresh)]);
    assert RunnersOk(w') && MarksOk(w') && PacketsOk(w') && RequestsOk(w');
    Close(w');
  }

  lemma RequestStepKeeps(w: World, s: Step)
    requires WorldInv(w)
    ensures WorldInv(DoRequest(w, s))
  {
    match s
    case Submit(req, command) =>
      if req !in w.requests {
        SubmitKeeps(w, req, command);
      }
    case DedupeCheck(req) =>
      if req in w.requests && w.requests[req].phase == Fresh {
        AnswerKeeps(w, req, DoRequest(w, s).requests[req].phase);
      }
    case Execute(req, newTurn, rows) =>
      if req in w.requests && w.requests[req].phase == Unseen {
        match w.requests[req].command
        case Finalize(_, _) => FinalizeKeeps(w, req, newTurn);
        case Patch(_, _, _, _) => PatchKeeps(w, req);
        case Interrupt(_, _, _) => InterruptKeeps(w, req, rows);
      }
    case ReadContext(req) =>
      if req in w.requests && w.requests[req].phase == Missed {
        AnswerKeeps(w, req, DoRequest(w, s).requests[req].phase);
      }
    case DedupeRecheck(req) =>
      if req in w.requests && w.requests[req].phase.MissedAt? {
        AnswerKeeps(w, req, DoRequest(w, s).requests[req].phase);
      }
    case ReadPreference(req) =>
      if req in w.requests && w.requests[req].phase.Conflicting? {
        AnswerKeeps(w, req, DoRequest(w, s).requests[req].phase);
      }
    case _ =>
  }

  // ---------- Messages ----------

  /** A finalized turn is a user turn for ever, with the context and preference version of its event. */
  lemma {:induction false} FinalizedTurnStays(log: seq<EventBody>, k: nat)
    requires Legal(log) && k < |log| && log[k].TurnFinalized?
    ensures var v := Fold(log);
            && log[k].turn in v.turns && v.turns[log[k].turn].kind == UserText
            && v.turns[log[k].turn].ctx == log[k].ctx && v.turns[log[k].turn].pref == log[k].pref
            && 1 <= log[k].pref <= v.pref
  {
    var n := |log| - 1;
    LegalIsSound(log[..n]);
    if k < n {
      FinalizedTurnStays(log[..n], k);
      TurnsPersistKeeps(Fold(log[..n]), log[n]);
    }
  }

  lemma PublishedPacketOk(db: SessionDb, index: nat)
    requires Inv(db) && index < |db.outbox| && db.outbox[index].body.TurnFinalized?
    ensures var e := db.outbox[index].body;
            var p := BuildPacket(db, e.turn, e.ctx, Some(e.pref)); p.Some? && PacketOk(db, p.value)
  {
    assert Holds(Log, db) && Holds(Turns, db) && Holds(Preferences, db);
    FinalizedTurnStays(Bodies(db.outbox), index);
  }

  lemma PlannedKeeps(w: World, w': World, packet: Packet, id: TaskId)
    requires WorldInv(w) && packet in w.packets && PacketIsCurrent(w.db, packet, Decide(packet))
    requires CreateOne(w.limits, w.db, packet, Decide(packet).plans[0], id).Commit?
    requires w' == w.(db := CreateOne(w.limits, w.db, packet, Decide(packet).plans[0], id).db)
    ensures WorldInv(w')
  {
    Open(w);
    CreateOneKeeps(w.limits, w.db, packet, id);
    CreateOneGrows(w.limits, w.db, packet, Decide(packet).plans[0], id);
    RunnersCarry(w, w');
    TransactionCarries(w, w');
  }

  lemma PlanKeeps(w: World, packet: Packet, newTask: TaskId)
    requires WorldInv(w) && packet in w.packets
    ensures WorldInv(DoMessage(w, PlanMessage(packet, newTask)))
  {
    Open(w);
    var r := CreateTasks(w.limits, w.db, packet, Decide(packet), [newTask]);
    if r.Commit? {
      if PacketIsCurrent(w.db, packet, Decide(packet)) {
        CreateTasksIsCreateOne(w.limits, w.db, packet, newTask);
        PlannedKeeps(w, w.(db := r.db), packet, newTask);
      }
    }
  }

  /** A composed reply, with the transaction's new database in place of the old one. */
  lemma ComposedKeeps(w: World, w': World, turn: TurnId, ctx: nat, newTurn: TurnId, taskRows: seq<TaskId>, callRows: seq<CallId>)
    requires WorldInv(w) && ComposeRows(PlanCompose(w.db, turn, ctx), taskRows, callRows)
    requires ComposeReply(w.db, turn, ctx, newTurn, taskRows, callRows).Commit?
    requires ComposeReply(w.db, turn, ctx, newTurn, taskRows, callRows).value != ItineraryConflict
    requires w' == w.(db := ComposeReply(w.db, turn, ctx, newTurn, taskRows, callRows).db)
    ensures WorldInv(w')
  {
    Open(w);
    ComposeReplyKeeps(w.db, turn, ctx, newTurn, taskRows, callRows);
    ComposeReplyGrows(w.db, turn, ctx, newTurn, taskRows, callRows);
    ComposeAddsNoInterrupt(w.db, turn, ctx, newTurn, taskRows, callRows);
    RunnersCarry(w, w');
    TransactionCarries(w, w');
  }

  lemma ComposeAddsNoInterrupt(
    db: SessionDb, turn: TurnId, ctx: nat, newTurn: TurnId, taskRows: seq<TaskId>, callRows: seq<CallId>)
    requires ComposeRows(PlanCompose(db, turn, ctx), taskRows, callRows)
    requires ComposeReply(db, turn, ctx, newTurn, taskRows, callRows).Commit?
    requires ComposeReply(db, turn, ctx, newTurn, taskRows, callRows).value != ItineraryConflict
    ensures var db' := ComposeReply(db, turn, ctx, newTurn, taskRows, callRows).db;
            NoNewInterrupts(db.outbox, db'.outbox) && db'.preferences == db.preferences
  {}

  lemma ComposeKeeps(w: World, turn: TurnId, ctx: nat, newTurn: TurnId, taskRows: seq<TaskId>, callRows: seq<CallId>)
    requires WorldInv(w) && ComposeRows(PlanCompose(w.db, turn, ctx), taskRows, callRows)
    ensures WorldInv(DoMessage(w, ComposeMessage(turn, ctx, newTurn, taskRows, callRows)))
  {
    Open(w);
    var r := ComposeReply(w.db, turn, ctx, newTurn, taskRows, callRows);
    if r.Commit? {
      NeverConflicts(w.db, turn, ctx, newTurn, taskRows, callRows);
      ComposedKeeps(w, w.(db := r.db), turn, ctx, newTurn, taskRows, callRows);
    }
  }

  lemma ClaimedKeeps(w: World, w': World, task: TaskId, run: RunId, newCall: CallId)
    requires WorldInv(w) && run !in w.runners && task in w.db.tasks && w.db.tasks[task].status == Queued
    requires ClaimTask(w.db, task, newCall).Commit?
    requires w' == w.(db := ClaimTask(w.db, task, newCall).db,
                      runners := w.runners[run := Runner(task, Some(newCall), MockTravel, CheckKey, None, false)])
    ensures WorldInv(w')
  {
    Open(w);
    RunKeeps(w.db, task, newCall);
    OneTaskGrows(w.db, w'.db, task);
    NewRunnerOk(w, w', task, run, newCall);
    TransactionCarries(w, w');
  }

  /** The message finds a request to cancel, and settles it. */
  lemma ClaimCancels(w: World, w': World, task: TaskId, newCall: CallId)
    requires WorldInv(w) && task in w.db.tasks && w.db.tasks[task].status == CancelRequested
    requires ClaimTask(w.db, task, newCall).Commit? && w' == w.(db := ClaimTask(w.db, task, newCall).db)
    ensures WorldInv(w')
  {
    Open(w);
    ClaimTaskKeeps(w.db, task, newCall);
    OneTaskGrows(w.db, w'.db, task);
    RunnersCarry(w, w');
    TransactionCarries(w, w');
  }

  lemma ClaimKeeps(w: World, task: TaskId, run: RunId, newCall: CallId)
    requires WorldInv(w) && run !in w.runners
    ensures WorldInv(DoMessage(w, TaskMessage(task, run, newCall)))
  {
    assert Stands(Database, w);
    var r := ClaimTask(w.db, task, newCall);
    if r.Commit? && task in w.db.tasks {
      var w' := DoMessage(w, TaskMessage(task, run, newCall));
      if w.db.tasks[task].status == Queued {
        RunKeeps(w.db, task, newCall);
        ClaimedKeeps(w, w', task, run, newCall);
      } else if w.db.tasks[task].status == CancelRequested {
        ClaimCancels(w, w', task, newCall);
      }
    }
  }

  /** A task is queued until its first claim, so the new runner is its only one. */
  lemma NewRunnerOk(w: World, w': World, task: TaskId, run: RunId, newCall: CallId)
    requires WorldInv(w) && run !in w.runners && Inv(w'.db)
    requires task in w.db.tasks && w.db.tasks[task].attempt == 0
    requires Grows(w.db, w'.db) && OthersUndisturbed(w.db, w'.db, Some(task))
    requires task in w'.db.tasks && w'.db.tasks[task] == RunningTask(w.db.tasks[task])
    requires newCall in w'.db.calls && w'.db.calls[newCall].task == task
    requires w'.runners == w.runners[run := Runner(task, Some(newCall), MockTravel, CheckKey, None, false)]
    ensures RunnersOk(w')
  {
    Open(w);
    forall r | r in w.runners ensures w.runners[r].task != task && RunnerOk(w'.db, w'.runners[r]) {
      assert RunnerOk(w.db, w.runners[r]);
      OtherRunnerCarries(w.db, w'.db, task, w.runners[r]);
    }
  }

  lemma PublishKeeps(w: World, index: nat)
    requires WorldInv(w)
    ensures WorldInv(DoMessage(w, PublishTurn(index)))
  {
    Open(w);
    if index < |w.db.outbox| && w.db.outbox[index].body.TurnFinalized? {
      var w' := DoMessage(w, PublishTurn(index));
      PublishedPacketOk(w.db, index);
      assert RunnersOk(w') && MarksOk(w') && RequestsOk(w');
      Close(w');
    }
  }

  lemma CancelKeyKeeps(w: World, s: Step)
    requires WorldInv(w) && (s.WriteCancelKey? || s.LoseCancelKey?)
    ensures WorldInv(DoMessage(w, s))
  {
    Open(w);
    var w' := DoMessage(w, s);
    assert RunnersOk(w') && PacketsOk(w') && RequestsOk(w');
    Close(w');
  }

  lemma MessageStepKeeps(w: World, s: Step)
    requires WorldInv(w)
    ensures WorldInv(DoMessage(w, s))
  {
    match s
    case PublishTurn(index) => PublishKeeps(w, index);
    case PlanMessage(packet, newTask) =>
      if packet in w.packets { PlanKeeps(w, packet, newTask); }
    case ComposeMessage(turn, ctx, newTurn, taskRows, callRows) =>
      if ComposeRows(PlanCompose(w.db, turn, ctx), taskRows, callRows) {
        ComposeKeeps(w, turn, ctx, newTurn, taskRows, callRows);
      }
    case WriteCancelKey(_, _) => CancelKeyKeeps(w, s);
    case LoseCancelKey(_) => CancelKeyKeeps(w, s);
    case TaskMessage(task, run, newCall) =>
      if run !in w.runners { ClaimKeeps(w, task, run, newCall); }
    case Replan(_, _) => Open(w);
    case _ =>
  }

  // ---------- Runners ----------

  lemma RunnerMoves(w: World, run: RunId, r: Runner)
    requires WorldInv(w) && run in w.runners && RunnerOk(w.db, r) && r.task == w.runners[run].task
    ensures WorldInv(w.(runners := w.runners[run := r]))
  {
    Open(w);
    var w' := w.(runners := w.runners[run := r]);
    SameGrows(w.db);
    OtherRunnersCarry(w, w', run);
    assert RequestsOk(w') && MarksOk(w') && PacketsOk(w');
    Close(w');
  }

  lemma RunnerLeaves(w: World, run: RunId)
    requires WorldInv(w)
    ensures WorldInv(Leave(w, run))
  {
    Open(w);
    var w' := Leave(w, run);
    assert RequestsOk(w') && MarksOk(w') && PacketsOk(w') && RunnersOk(w');
    Close(w');
  }

  /** Where a runner's transaction leaves the world, whether or not its acknowledgement came back. */
  function Committed(w: World, db': SessionDb, run: RunId, acknowledged: bool): World
    requires run in w.runners
  {
    if acknowledged then Leave(w.(db := db'), run) else Goto(w.(db := db'), run, Failing)
  }

  /** A runner's own transaction: the others are undisturbed, and it leaves or goes on to the failure handler. */
  lemma RunnerCommits(w: World, db': SessionDb, run: RunId, acknowledged: bool)
    requires WorldInv(w) && run in w.runners && Inv(db')
    requires db' == w.db || OneTaskStep(w.db, db', w.runners[run].task)
    requires acknowledged || RunnerOk(db', w.runners[run].(pc := Failing))
    ensures WorldInv(Committed(w, db', run, acknowledged))
  {
    Open(w);
    SameGrows(w.db);
    if db' != w.db {
      OneTaskGrows(w.db, db', w.runners[run].task);
    }
    OtherRunnersCarry(w, Committed(w, db', run, acknowledged), run);
    TransactionCarries(w, Committed(w, db', run, acknowledged));
  }

  lemma MarkKeeps(w: World, run: RunId, acknowledged: bool)
    requires WorldInv(w) && run in w.runners && w.runners[run].pc == Marking
    ensures WorldInv(DoRunner(w, Mark(run, acknowledged)))
  {
    Open(w);
    var r := w.runners[run];
    assert RunnerOk(w.db, r);
    MarkCancelledKeeps(w.db, r.task);
    RunnerCommits(w, MarkCancelled(w.db, r.task), run, acknowledged);
  }

  /** After its commit the task is succeeded or discarded: nothing is left for the failure handler to do. */
  lemma CommittedRunnerOk(db: SessionDb, r: Runner, seen: bool)
    requires Inv(db) && RunnerOk(db, r) && r.pc == Committing && r.output.Some? && (seen ==> Stale(db, r.task))
    ensures var db' := CommitResult(db, r.task, r.call, r.output.value, r.cancelSeen || seen);
            Inv(db') && OneTaskStep(db, db', r.task) && RunnerOk(db', r.(pc := Failing))
  {
    CommitResultKeeps(db, r.task, r.call, r.output.value, r.cancelSeen || seen);
    OneTaskGrows(db, CommitResult(db, r.task, r.call, r.output.value, r.cancelSeen || seen), r.task);
  }

  /** What `CommitRun` commits. */
  function RunResult(w: World, run: RunId, seen: bool): SessionDb
    requires run in w.runners && w.runners[run].output.Some?
  {
    var r := w.runners[run];
    CommitResult(w.db, r.task, r.call, r.output.value, r.cancelSeen || seen)
  }

  predicate CommitReady(w: World, run: RunId, seen: bool) {
    && run in w.runners && w.runners[run].pc == Committing && w.runners[run].output.Some?
    && (seen ==> w.runners[run].task in w.cancelKeys)
  }

  lemma RunResultKeeps(w: World, run: RunId, seen: bool)
    requires WorldInv(w) && CommitReady(w, run, seen)
    ensures Inv(RunResult(w, run, seen)) && OneTaskStep(w.db, RunResult(w, run, seen), w.runners[run].task)
    ensures RunnerOk(RunResult(w, run, seen), w.runners[run].(pc := Failing))
  {
    Open(w);
    assert RunnerOk(w.db, w.runners[run]);
    CommittedRunnerOk(w.db, w.runners[run], seen);
  }

  lemma CommitRunKeeps(w: World, run: RunId, seen: bool, acknowledged: bool)
    requires WorldInv(w) && CommitReady(w, run, seen)
    ensures WorldInv(DoRunner(w, CommitRun(run, seen, acknowledged)))
  {
    Open(w);
    RunResultKeeps(w, run, seen);
    RunnerCommits(w, RunResult(w, run, seen), run, acknowledged);
  }

  lemma FailStepKeeps(w: World, run: RunId)
    requires WorldInv(w) && run in w.runners && w.runners[run].pc == Failing
    ensures WorldInv(DoRunner(w, Fail(run)))
  {
    Open(w);
    var r := w.runners[run];
    assert RunnerOk(w.db, r);
    FailTaskKeeps(w.db, r.task, r.call);
    RunnerCommits(w, FailTask(w.db, r.task, r.call), run, true);
  }

  /** A cancel request that a runner reads means that the session has moved on. */
  lemma RequestedIsStale(db: SessionDb, id: TaskId)
    requires Inv(db) && id in db.tasks && db.tasks[id].status == CancelRequested
    ensures Stale(db, id)
  {
    TaskMatchesView(db, id);
  }

  lemma KeyReadKeeps(w: World, run: RunId, seen: bool)
    requires WorldInv(w)
    ensures WorldInv(DoRunner(w, ReadKey(run, seen)))
  {
    Open(w);
    var w' := DoRunner(w, ReadKey(run, seen));
    if w' != w {
      assert RunnerOk(w.db, w.runners[run]);
      RunnerMoves(w, run, w'.runners[run]);
    }
  }

  lemma RowReadKeeps(w: World, run: RunId)
    requires WorldInv(w)
    ensures WorldInv(DoRunner(w, ReadRow(run)))
  {
    Open(w);
    var w' := DoRunner(w, ReadRow(run));
    if w' != w {
      var r := w.runners[run];
      assert RunnerOk(w.db, r);
      if w.db.tasks[r.task].status == CancelRequested {
        RequestedIsStale(w.db, r.task);
      }
      RunnerMoves(w, run, w'.runners[run]);
    }
  }

  lemma ToolKeeps(w: World, s: Step)
    requires WorldInv(w) && (s.RunTool? || s.Raise?)
    ensures WorldInv(DoRunner(w, s))
  {
    Open(w);
    var w' := DoRunner(w, s);
    if w' != w {
      assert RunnerOk(w.db, w.runners[s.run]);
      RunnerMoves(w, s.run, w'.runners[s.run]);
    }
  }

  lemma RunnerStepKeeps(w: World, s: Step)
    requires WorldInv(w)
    ensures WorldInv(DoRunner(w, s))
  {
    match s
    case Mark(run, acknowledged) =>
      if run in w.runners && w.runners[run].pc == Marking { MarkKeeps(w, run, acknowledged); }
    case CommitRun(run, seen, acknowledged) =>
      if CommitReady(w, run, seen) {
        CommitRunKeeps(w, run, seen, acknowledged);
      }
    case Fail(run) =>
      if run in w.runners && w.runners[run].pc == Failing { FailStepKeeps(w, run); }
    case Crash(run) => RunnerLeaves(w, run);
    case ReadKey(run, seen) => KeyReadKeeps(w, run, seen);
    case ReadRow(run) => RowReadKeeps(w, run);
    case RunTool(_, _) => ToolKeeps(w, s);
    case Raise(_) => ToolKeeps(w, s);
    case _ =>
  }

  // ---------- Runs ----------

  lemma StepKeeps(w: World, s: Step)
    requires WorldInv(w)
    ensures WorldInv(Do(w, s))
  {
    RequestStepKeeps(w, s);
    MessageStepKeeps(w, s);
    RunnerStepKeeps(w, s);
  }

  /** Every run, of any length and in any interleaving, stays within the invariant. */
  lemma {:induction false} RunsAreSafe(limits: IV.Limits, preference: Payload, steps: seq<Step>)
    ensures WorldInv(After(Init(limits, preference), steps))
  {
    if steps == [] {
      InitInv(limits, preference);
    } else {
      RunsAreSafe(limits, preference, steps[..|steps| - 1]);
      StepKeeps(After(Init(limits, preference), steps[..|steps| - 1]), steps[|steps| - 1]);
    }
  }
}
