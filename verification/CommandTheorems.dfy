/** What every run promises about client commands: each takes effect at most once, and nothing else is refused. */
module CommandTheorems {
  import opened Rows
  import opened Transactions
  import opened History
  import opened Refinement
  import opened TaskSteps
  import opened InterruptSteps
  import opened ReplySteps
  import opened Runs
  import opened RunInvariant
  import opened RunSafety
  import opened LogTheorems
  import opened Theorems
  import opened ReplyTheorems
  import IV = InputValidation

  predicate IsAnswered(w: World, req: RequestId, key: DedupeKey) {
    && req in w.requests && CommandKey(w.requests[req].command) == key
    && w.requests[req].phase.Done? && Accepted(w.requests[req].phase.response)
  }

  /** All accepted answers to commands with one client event id are the same, and tell of one row of the log. */
  lemma SameKeySameAnswer(w: World, a: RequestId, b: RequestId, key: DedupeKey)
    requires Reachable(w) && IsAnswered(w, a, key) && IsAnswered(w, b, key)
    ensures w.requests[a].phase.response == w.requests[b].phase.response
    ensures KeyTaken(w.db.outbox, key) && w.requests[a].phase.response == ResponseOf(RowWithKey(w.db.outbox, key))
    ensures forall i, j :: 0 <= i < j < |w.db.outbox| ==> !(w.db.outbox[i].key == key == w.db.outbox[j].key)
  {
    ReachableInv(w);
    assert RequestOk(w.db, w.requests[a]) && RequestOk(w.db, w.requests[b]);
    assert Holds(Log, w.db);
  }

  predicate TookEffect(w: World, w': World, req: RequestId)
    requires req in w.requests && req in w'.requests
  {
    && !KeyTaken(w.db.outbox, CommandKey(w.requests[req].command))
    && KeyTaken(w'.db.outbox, CommandKey(w.requests[req].command))
    && w'.requests[req].phase.Done? && Accepted(w'.requests[req].phase.response)
  }

  /** A transaction either takes effect under a key nobody used before, or changes nothing and accepts nothing:
    between the check and the lock another request with the key may have won. */
  lemma TakesEffectOnce(w: World, req: RequestId, newTurn: TurnId, rows: seq<TaskId>)
    requires req in w.requests && w.requests[req].phase == Unseen
    ensures var w' := Do(w, Execute(req, newTurn, rows));
            && req in w'.requests
            && (TookEffect(w, w', req)
                || (w'.db == w.db && w'.patches == w.patches
                    && !(w'.requests[req].phase.Done? && Accepted(w'.requests[req].phase.response))))
            && (KeyTaken(w.db.outbox, CommandKey(w.requests[req].command)) ==> w'.db == w.db)
  {
    match w.requests[req].command
    case Finalize(e, text) => FinalizesOnce(w.db, newTurn, text, e);
    case Patch(e, baseCtx, patch, source) => PatchesOnce(w.db, baseCtx, patch, source, e);
    case Interrupt(e, turn, reason) =>
      if Enumerates(rows, TasksToCancel(w.db, turn)) {
        InterruptsOnce(w.db, turn, reason, e, rows);
      }
  }

  lemma LastKeyIsTaken(outbox: seq<EventRow>)
    requires outbox != []
    ensures KeyTaken(outbox, outbox[|outbox| - 1].key)
  {}

  lemma FinalizesOnce(db: SessionDb, id: TurnId, text: string, e: string)
    ensures var r := FinalizeTurn(db, id, text, e);
            r.Commit? ==> !KeyTaken(db.outbox, KeyTurn(e)) && KeyTaken(r.db.outbox, KeyTurn(e))
  {
    var r := FinalizeTurn(db, id, text, e);
    if r.Commit? {
      LastKeyIsTaken(r.db.outbox);
    }
  }

  lemma PatchesOnce(db: SessionDb, baseCtx: nat, patch: Payload, source: Option<TurnId>, e: string)
    ensures var r := UpdatePreference(db, baseCtx, patch, source, e);
            r.Commit? ==>
              if r.value.None? then r.db == db
              else !KeyTaken(db.outbox, KeyPreference(e)) && KeyTaken(r.db.outbox, KeyPreference(e))
  {
    var r := UpdatePreference(db, baseCtx, patch, source, e);
    if r.Commit? && r.value.Some? {
      LastKeyIsTaken(r.db.outbox);
    }
  }

  lemma InterruptsOnce(db: SessionDb, turn: TurnId, reason: string, e: string, rows: seq<TaskId>)
    requires Enumerates(rows, TasksToCancel(db, turn))
    ensures var r := RegisterInterrupt(db, turn, reason, e, rows);
            r.Commit? ==> !KeyTaken(db.outbox, KeyInterrupt(e)) && KeyTaken(r.db.outbox, KeyInterrupt(e))
  {
    var r := RegisterInterrupt(db, turn, reason, e, rows);
    if r.Commit? {
      LastKeyIsTaken(r.db.outbox);
    }
  }

  // ---------- What a command does ----------

  /** A finalized turn is the user's text at the end of the conversation, in a new context; nothing else changes but
    the log, by one row. */
  lemma FinalizeWrites(w: World, id: TurnId, text: string, e: string)
    requires Reachable(w) && FinalizeTurn(w.db, id, text, e).Commit?
    ensures var r := FinalizeTurn(w.db, id, text, e);
            && r.db == w.db.(ctx := w.db.ctx + 1, turns := r.db.turns, lastSeq := w.db.lastSeq + 1, outbox := r.db.outbox)
            && r.db.turns == w.db.turns
                 [id := Turn(|w.db.turns| + 1, UserText, UserFinal, w.db.ctx + 1, None, text, None, None)]
            && r.db.outbox == w.db.outbox
                 + [EventRow(w.db.lastSeq + 1, TurnFinalized(id, w.db.ctx + 1, r.value.pref), KeyTurn(e))]
            && IsActive(w.db, r.value.pref) && r.value == Finalized(id, r.db.ctx, r.value.pref, r.db.lastSeq)
  {
    ReachableInv(w);
    LastPosition(w.db);
  }

  /** An interrupt cancels exactly the queued and running tasks of its turn, whatever their context, and records why. */
  lemma InterruptCancelsItsWork(w: World, turn: TurnId, reason: string, e: string, rows: seq<TaskId>)
    requires Reachable(w) && Enumerates(rows, TasksToCancel(w.db, turn))
    requires RegisterInterrupt(w.db, turn, reason, e, rows).Commit?
    ensures var r := RegisterInterrupt(w.db, turn, reason, e, rows);
            && (forall id :: id in r.value.cancelled <==> id in TasksOf(w.db, turn) && w.db.tasks[id].status in {Queued, Running})
            && r.db.tasks.Keys == w.db.tasks.Keys
            && (forall id :: id in w.db.tasks ==>
                  r.db.tasks[id] == if id in r.value.cancelled then w.db.tasks[id].(status := CancelRequested) else w.db.tasks[id])
            && turn in w.db.turns
            && r.db.turns == w.db.turns[turn := w.db.turns[turn].(status := Interrupted, interruptReason := Some(reason))]
            && r.db.ctx == w.db.ctx + 1 == r.value.ctx && r.value.turn == turn && r.value.seqNo == r.db.lastSeq
            && |r.db.outbox| == |w.db.outbox| + |rows| + 1
  {
    ReachableInv(w);
    RegisterShape(w.db, turn, reason, e, rows);
    InterruptsIsRequestable(w.db, turn, rows);
    RequestAllChanges(w.db, turn, rows);
    RegisterInterruptKeeps(w.db, turn, reason, e, rows);
    assert Holds(Log, w.db) && Holds(Log, RegisterInterrupt(w.db, turn, reason, e, rows).db);
    forall id | id in TasksOf(w.db, turn) ensures w.db.tasks[id].ctx == Some(w.db.ctx) {
      TaskMatchesView(w.db, id);
      assert Holds(Turns, w.db);
      assert TurnMatches(w.db.turns[turn], ViewOf(w.db).turns[turn]);
    }
  }

  // ---------- What can be refused ----------

  /** In a reachable state a finalize is refused only for a client event id or a turn id that is taken. */
  lemma FinalizeRefused(w: World, id: TurnId, text: string, e: string)
    requires Reachable(w)
    ensures FinalizeTurn(w.db, id, text, e).Abort?
            <==> id in w.db.turns || KeyTaken(w.db.outbox, KeyTurn(e))
  {
    ReachableInv(w);
    ActiveIsLatest(w.db);
  }

  /** A current patch is refused only for its source turn or its client event id: the version constraint of the
    preferences never fires. */
  lemma PatchRefused(w: World, baseCtx: nat, patch: Payload, source: Option<TurnId>, e: string)
    requires Reachable(w)
    ensures UpdatePreference(w.db, baseCtx, patch, source, e).Abort?
            <==> w.db.ctx == baseCtx
                 && ((source.Some? && source.value !in w.db.turns) || KeyTaken(w.db.outbox, KeyPreference(e)))
  {
    ReachableInv(w);
    ActiveIsLatest(w.db);
    assert Holds(Preferences, w.db);
  }

  /** An interrupt is refused only for its turn or its client event id: no task has been asked to cancel before. */
  lemma InterruptRefused(w: World, turn: TurnId, reason: string, e: string, rows: seq<TaskId>)
    requires Reachable(w) && Enumerates(rows, TasksToCancel(w.db, turn))
    ensures RegisterInterrupt(w.db, turn, reason, e, rows).Abort?
            <==> turn !in w.db.turns || w.db.turns[turn].ctx != w.db.ctx || KeyTaken(w.db.outbox, KeyInterrupt(e))
  {
    ReachableInv(w);
    forall t | t in rows ensures !KeyTaken(w.db.outbox, KeyTask(t, CancelRequested)) {
      assert t in TasksToCancel(w.db, turn);
      MoveAppends(w.db, t, CancelRequested);
    }
  }

  /** Claiming fails only when the identifier drawn for the tool call is taken. */
  lemma ClaimRefused(w: World, id: TaskId, newCall: CallId)
    requires Reachable(w)
    ensures ClaimTask(w.db, id, newCall).Abort?
            <==> id in w.db.tasks && w.db.tasks[id].status == Queued && newCall in w.db.calls
  {
    ReachableInv(w);
    if id in w.db.tasks && w.db.tasks[id].status == Queued {
      TaskMatchesView(w.db, id);
      UnclaimedHasNoCall(w.db, id);
    }
  }

  lemma BuildRefused(db: SessionDb, turn: TurnId, ctx: nat, newTurn: TurnId, taskRows: seq<TaskId>, callRows: seq<CallId>)
    requires Inv(db) && PlanCompose(db, turn, ctx).Build? && ComposeRows(PlanCompose(db, turn, ctx), taskRows, callRows)
    ensures ComposeReply(db, turn, ctx, newTurn, taskRows, callRows).Abort? <==> newTurn in db.turns
  {
    var id, c := BuildShape(db, turn, ctx);
    NextVersionIsFree(db, turn, id);
  }

  lemma ExistingReplyFits(db: SessionDb, turn: TurnId, ctx: nat)
    requires Inv(db) && PlanCompose(db, turn, ctx).Existing?
    ensures PlanCompose(db, turn, ctx).row.body.ReplyCreated?
  {
    assert Holds(Log, db);
    var row := RowWithKey(db.outbox, KeyReply(turn, ctx));
    assert KeyFits(row);
  }

  /** Composing fails only when it builds and the identifier drawn for the reply turn is taken. */
  lemma ComposeRefused(w: World, turn: TurnId, ctx: nat, newTurn: TurnId, taskRows: seq<TaskId>, callRows: seq<CallId>)
    requires Reachable(w) && ComposeRows(PlanCompose(w.db, turn, ctx), taskRows, callRows)
    ensures ComposeReply(w.db, turn, ctx, newTurn, taskRows, callRows).Abort?
            <==> PlanCompose(w.db, turn, ctx).Build? && newTurn in w.db.turns
  {
    ReachableInv(w);
    if PlanCompose(w.db, turn, ctx).Build? {
      BuildRefused(w.db, turn, ctx, newTurn, taskRows, callRows);
    } else if PlanCompose(w.db, turn, ctx).Existing? {
      ExistingReplyFits(w.db, turn, ctx);
    }
  }

  // ---------- Preferences ----------

  /** Preference versions are exactly 1..n for the initial preference and the n - 1 accepted patches; only n is
    active, and version x is the initial payload overlaid by the first x - 1 patches in order. */
  lemma PreferenceChain(w: World)
    requires Reachable(w)
    ensures |w.patches| == 1 + PatchCount(Bodies(w.db.outbox))
    ensures forall x :: x in w.db.preferences <==> 1 <= x <= |w.patches|
    ensures forall x :: x in w.db.preferences ==> (w.db.preferences[x].status == Active <==> x == |w.patches|)
    ensures forall x :: x in w.db.preferences ==> w.db.preferences[x].payload == Overlay(w.patches[..x])
  {
    ReachableInv(w);
    VersionsFromLog(w.db);
    ActiveIsLatest(w.db);
    assert Holds(Preferences, w.db);
  }

  /** The overlay is last-writer-wins: a key has the value of the last patch that names it. */
  lemma {:induction false} LastPatchWins(patches: seq<Payload>, key: string, i: nat)
    requires i < |patches| && key in patches[i] && forall j :: i < j < |patches| ==> key !in patches[j]
    ensures key in Overlay(patches) && Overlay(patches)[key] == patches[i][key]
  {
    var n := |patches| - 1;
    if i < n {
      LastPatchWins(patches[..n], key, i);
    }
  }

  ghost predicate ContextGuards(db: SessionDb, db': SessionDb) {
    db.ctx <= db'.ctx && (db'.ctx == db.ctx ==> db'.preferences == db.preferences)
  }

  lemma RequestGuarded(w: World, s: Step)
    ensures ContextGuards(w.db, DoRequest(w, s).db)
  {
    if s.Execute? && s.req in w.requests && w.requests[s.req].command.Interrupt? {
      var Interrupt(e, turn, reason) := w.requests[s.req].command;
      if Enumerates(s.rows, TasksToCancel(w.db, turn)) && RegisterInterrupt(w.db, turn, reason, e, s.rows).Commit? {
        RegisterShape(w.db, turn, reason, e, s.rows);
      }
    }
  }

  lemma ClaimGuarded(db: SessionDb, id: TaskId, newCall: CallId)
    requires ClaimTask(db, id, newCall).Commit?
    ensures ContextGuards(db, ClaimTask(db, id, newCall).db)
  {}

  lemma PlanGuarded(limits: IV.Limits, db: SessionDb, packet: Packet, newTask: TaskId)
    requires CreateTasks(limits, db, packet, Decide(packet), [newTask]).Commit?
    ensures ContextGuards(db, CreateTasks(limits, db, packet, Decide(packet), [newTask]).db)
  {
    if PacketIsCurrent(db, packet, Decide(packet)) {
      CreateTasksIsCreateOne(limits, db, packet, newTask);
    }
  }

  lemma ComposeGuarded(db: SessionDb, turn: TurnId, ctx: nat, newTurn: TurnId, taskRows: seq<TaskId>, callRows: seq<CallId>)
    requires Inv(db) && ComposeRows(PlanCompose(db, turn, ctx), taskRows, callRows)
    requires ComposeReply(db, turn, ctx, newTurn, taskRows, callRows).Commit?
    ensures ContextGuards(db, ComposeReply(db, turn, ctx, newTurn, taskRows, callRows).db)
  {
    NeverConflicts(db, turn, ctx, newTurn, taskRows, callRows);
  }

  lemma MessageGuarded(w: World, s: Step)
    requires Inv(w.db)
    ensures ContextGuards(w.db, DoMessage(w, s).db)
  {
    match s
    case PlanMessage(packet, newTask) =>
      if CreateTasks(w.limits, w.db, packet, Decide(packet), [newTask]).Commit? {
        PlanGuarded(w.limits, w.db, packet, newTask);
      }
    case ComposeMessage(turn, ctx, newTurn, taskRows, callRows) =>
      if ComposeRows(PlanCompose(w.db, turn, ctx), taskRows, callRows)
         && ComposeReply(w.db, turn, ctx, newTurn, taskRows, callRows).Commit? {
        ComposeGuarded(w.db, turn, ctx, newTurn, taskRows, callRows);
      }
    case TaskMessage(task, run, newCall) =>
      if ClaimTask(w.db, task, newCall).Commit? {
        ClaimGuarded(w.db, task, newCall);
      }
    case _ =>
  }

  lemma CommitGuarded(db: SessionDb, id: TaskId, call: Option<CallId>, output: ToolOutput, cancelSeen: bool)
    ensures ContextGuards(db, CommitResult(db, id, call, output, cancelSeen))
  {}

  lemma FailGuarded(db: SessionDb, id: TaskId, call: Option<CallId>)
    ensures ContextGuards(db, FailTask(db, id, call))
  {}

  lemma RunnerGuarded(w: World, s: Step)
    ensures ContextGuards(w.db, DoRunner(w, s).db)
  {
    match s
    case CommitRun(run, seen, _) =>
      if CommitReady(w, run, seen) {
        var r := w.runners[run];
        CommitGuarded(w.db, r.task, r.call, r.output.value, r.cancelSeen || seen);
      }
    case Fail(run) =>
      if run in w.runners {
        FailGuarded(w.db, w.runners[run].task, w.runners[run].call);
      }
    case _ =>
  }

  lemma {:induction false} RunGuarded(w: World, steps: seq<Step>)
    requires WorldInv(w)
    ensures ContextGuards(w.db, After(w, steps).db)
  {
    if steps != [] {
      var before, s := After(w, steps[..|steps| - 1]), steps[|steps| - 1];
      RunGuarded(w, steps[..|steps| - 1]);
      AfterKeeps(w, steps[..|steps| - 1]);
      Open(before);
      RequestGuarded(before, s);
      MessageGuarded(before, s);
      RunnerGuarded(before, s);
    }
  }

  /** The context version never falls, and as long as it stands still every preference row stays as it is: two worlds
    of one run at one context version hold the same preferences. */
  lemma PreferencesFollowContext(w: World, steps: seq<Step>)
    requires Reachable(w)
    ensures w.db.ctx <= After(w, steps).db.ctx
    ensures After(w, steps).db.ctx == w.db.ctx ==> After(w, steps).db.preferences == w.db.preferences
  {
    ReachableInv(w);
    RunGuarded(w, steps);
  }

  /** The worker's currency test looks at the preference too, but the context decides alone. */
  lemma ContextDecidesCurrency(w: World, id: TaskId)
    requires Reachable(w) && id in w.db.tasks
    ensures IsCurrent(w.db, w.db.tasks[id]) <==> w.db.tasks[id].ctx == Some(w.db.ctx)
  {
    ReachableInv(w);
    DiscardIsStaleness(w.db, id, false);
  }
}
