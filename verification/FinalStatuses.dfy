/** Which task statuses are final.

  The design says that a terminal status is never left.  The code leaves `cancelled` for `discarded`, when a runner
  commits a late result.  Here is exactly when: which step can do it, and from which worlds a run can get there.
 */
module FinalStatuses {
  import opened Rows
  import opened Transactions
  import opened Refinement
  import opened TaskSteps
  import opened InterruptSteps
  import opened ReplySteps
  import opened Runs
  import opened RunInvariant
  import opened RunSafety
  import opened Theorems

  const TERMINAL := {Cancelled, Succeeded, Failed, Discarded}

  predicate IsTerminal(w: World, id: TaskId) {
    id in w.db.tasks && w.db.tasks[id].status in TERMINAL
  }

  /** The step is the commit of the task's runner. */
  predicate CommitsTask(w: World, s: Step, id: TaskId) {
    s.CommitRun? && CommitReady(w, s.run, s.seen) && w.runners[s.run].task == id
  }

  // ---------- One step ----------

  lemma RequestLeavesAlone(w: World, s: Step, id: TaskId)
    requires IsTerminal(w, id)
    ensures id in DoRequest(w, s).db.tasks && DoRequest(w, s).db.tasks[id] == w.db.tasks[id]
  {
    if s.Execute? && s.req in w.requests && w.requests[s.req].command.Interrupt? {
      var Interrupt(e, turn, reason) := w.requests[s.req].command;
      if Enumerates(s.rows, TasksToCancel(w.db, turn)) && RegisterInterrupt(w.db, turn, reason, e, s.rows).Commit? {
        RegisterShape(w.db, turn, reason, e, s.rows);
        RequestAllChanges(w.db, turn, s.rows);
        assert id in s.rows <==> id in TasksToCancel(w.db, turn);
      }
    }
  }

  lemma PlanLeavesAlone(w: World, packet: Packet, newTask: TaskId, id: TaskId)
    requires IsTerminal(w, id)
    ensures var w' := DoMessage(w, PlanMessage(packet, newTask));
            id in w'.db.tasks && w'.db.tasks[id] == w.db.tasks[id]
  {
    if PacketIsCurrent(w.db, packet, Decide(packet)) {
      CreateTasksIsCreateOne(w.limits, w.db, packet, newTask);
    }
  }

  lemma ComposeLeavesAlone(
    w: World, turn: TurnId, ctx: nat, newTurn: TurnId, taskRows: seq<TaskId>, callRows: seq<CallId>, id: TaskId)
    requires WorldInv(w) && IsTerminal(w, id)
    ensures var w' := DoMessage(w, ComposeMessage(turn, ctx, newTurn, taskRows, callRows));
            id in w'.db.tasks && w'.db.tasks[id] == w.db.tasks[id]
  {
    assert Stands(Database, w);
    if ComposeRows(PlanCompose(w.db, turn, ctx), taskRows, callRows) {
      NeverConflicts(w.db, turn, ctx, newTurn, taskRows, callRows);
    }
  }

  lemma ClaimLeavesAlone(db: SessionDb, task: TaskId, newCall: CallId, id: TaskId)
    requires id in db.tasks && db.tasks[id].status in TERMINAL && ClaimTask(db, task, newCall).Commit?
    ensures var db' := ClaimTask(db, task, newCall).db; id in db'.tasks && db'.tasks[id] == db.tasks[id]
  {}

  lemma MessageLeavesAlone(w: World, s: Step, id: TaskId)
    requires WorldInv(w) && IsTerminal(w, id)
    ensures id in DoMessage(w, s).db.tasks && DoMessage(w, s).db.tasks[id] == w.db.tasks[id]
  {
    match s
    case PlanMessage(packet, newTask) => PlanLeavesAlone(w, packet, newTask, id);
    case ComposeMessage(turn, ctx, newTurn, taskRows, callRows) =>
      ComposeLeavesAlone(w, turn, ctx, newTurn, taskRows, callRows, id);
    case TaskMessage(task, run, newCall) =>
      if ClaimTask(w.db, task, newCall).Commit? { ClaimLeavesAlone(w.db, task, newCall, id); }
    case _ =>
  }

  lemma CommitLeavesAlone(db: SessionDb, task: TaskId, call: Option<CallId>, output: ToolOutput, cancelSeen: bool, id: TaskId)
    requires id in db.tasks && id != task
    ensures var db' := CommitResult(db, task, call, output, cancelSeen); id in db'.tasks && db'.tasks[id] == db.tasks[id]
  {}

  lemma FailLeavesAlone(db: SessionDb, r: Runner, id: TaskId)
    requires RunnerOk(db, r) && r.pc == Failing && id in db.tasks && db.tasks[id].status in TERMINAL
    ensures var db' := FailTask(db, r.task, r.call); id in db'.tasks && db'.tasks[id] == db.tasks[id]
  {}

  lemma MarkLeavesAlone(db: SessionDb, task: TaskId, id: TaskId)
    requires id in db.tasks && db.tasks[id].status in TERMINAL
    ensures var db' := MarkCancelled(db, task); id in db'.tasks && db'.tasks[id] == db.tasks[id]
  {}

  lemma CommitRunLeavesAlone(w: World, run: RunId, seen: bool, acknowledged: bool, id: TaskId)
    requires id in w.db.tasks && !CommitsTask(w, CommitRun(run, seen, acknowledged), id)
    ensures var w' := DoRunner(w, CommitRun(run, seen, acknowledged));
            id in w'.db.tasks && w'.db.tasks[id] == w.db.tasks[id]
  {
    if CommitReady(w, run, seen) {
      var r := w.runners[run];
      CommitLeavesAlone(w.db, r.task, r.call, r.output.value, r.cancelSeen || seen, id);
    }
  }

  lemma RunnerLeavesAlone(w: World, s: Step, id: TaskId)
    requires WorldInv(w) && IsTerminal(w, id) && !CommitsTask(w, s, id)
    ensures id in DoRunner(w, s).db.tasks && DoRunner(w, s).db.tasks[id] == w.db.tasks[id]
  {
    assert Stands(Runners, w);
    match s
    case CommitRun(run, seen, acknowledged) => CommitRunLeavesAlone(w, run, seen, acknowledged, id);
    case Mark(run, _) =>
      if run in w.runners { MarkLeavesAlone(w.db, w.runners[run].task, id); }
    case Fail(run) =>
      if run in w.runners && w.runners[run].pc == Failing { FailLeavesAlone(w.db, w.runners[run], id); }
    case _ =>
  }

  lemma LateCommitDiscards(db: SessionDb, r: Runner, seen: bool)
    requires Inv(db) && RunnerOk(db, r) && r.pc == Committing && (seen ==> Stale(db, r.task)) && db.tasks[r.task].status in TERMINAL
    ensures db.tasks[r.task].status == Cancelled
    ensures var db' := CommitResult(db, r.task, r.call, r.output.value, r.cancelSeen || seen);
            r.task in db'.tasks && db'.tasks[r.task].status == Discarded
  {
    TaskMatchesView(db, r.task);
    DiscardIsStaleness(db, r.task, r.cancelSeen || seen);
  }

  /** The commit of a task that is terminal already finds it cancelled, and discards it. */
  lemma CommitDiscards(w: World, s: Step, id: TaskId)
    requires WorldInv(w) && IsTerminal(w, id) && CommitsTask(w, s, id)
    ensures w.db.tasks[id].status == Cancelled
    ensures id in Do(w, s).db.tasks && Do(w, s).db.tasks[id].status == Discarded
  {
    assert Stands(Database, w) && Stands(Runners, w) && Stands(Marks, w);
    assert RunnerOk(w.db, w.runners[s.run]);
    LateCommitDiscards(w.db, w.runners[s.run], s.seen);
  }

  lemma TerminalStep(w: World, s: Step, id: TaskId)
    requires WorldInv(w) && IsTerminal(w, id)
    ensures id in Do(w, s).db.tasks
    ensures if CommitsTask(w, s, id) then w.db.tasks[id].status == Cancelled && Do(w, s).db.tasks[id].status == Discarded
            else Do(w, s).db.tasks[id] == w.db.tasks[id]
  {
    if CommitsTask(w, s, id) {
      CommitDiscards(w, s, id);
    } else {
      RequestLeavesAlone(w, s, id);
      MessageLeavesAlone(w, s, id);
      RunnerLeavesAlone(w, s, id);
    }
  }

  /** A step changes a terminal status if and only if it is the commit of the task's own runner, and then the task goes
    from cancelled to discarded. */
  lemma TerminalLeftIff(w: World, s: Step, id: TaskId)
    requires Reachable(w) && IsTerminal(w, id)
    ensures id in Do(w, s).db.tasks
    ensures Do(w, s).db.tasks[id].status != w.db.tasks[id].status <==> CommitsTask(w, s, id)
    ensures CommitsTask(w, s, id) ==> w.db.tasks[id].status == Cancelled && Do(w, s).db.tasks[id].status == Discarded
  {
    ReachableInv(w);
    TerminalStep(w, s, id);
  }

  // ---------- Whole runs ----------

  /** The runner may still get to its commit: it is neither cancelling its task nor in the failure handler. */
  predicate OnItsWay(r: Runner) {
    r.pc !in {Marking, Failing}
  }

  ghost predicate HasCommitter(w: World, id: TaskId) {
    exists run :: run in w.runners && w.runners[run].task == id && OnItsWay(w.runners[run])
  }

  lemma NoNewRunner(w: World, s: Step, id: TaskId)
    requires id in w.db.tasks && w.db.tasks[id].status != Queued
    ensures forall run :: run in Do(w, s).runners && run !in w.runners ==> Do(w, s).runners[run].task != id
  {}

  lemma OffItsWayStays(w: World, s: Step, run: RunId)
    requires run in w.runners && run in Do(w, s).runners
    ensures Do(w, s).runners[run].task == w.runners[run].task
    ensures OnItsWay(Do(w, s).runners[run]) ==> OnItsWay(w.runners[run])
  {}

  /** A runner off its way never comes back to it, and a task that has been claimed gets no new runner. */
  lemma NoNewCommitter(w: World, s: Step, id: TaskId)
    requires id in w.db.tasks && w.db.tasks[id].status != Queued && !HasCommitter(w, id)
    ensures !HasCommitter(Do(w, s), id)
  {
    NoNewRunner(w, s, id);
    forall run | run in Do(w, s).runners && Do(w, s).runners[run].task == id ensures !OnItsWay(Do(w, s).runners[run]) {
      OffItsWayStays(w, s, run);
    }
  }

  lemma OnlyCommittersCommit(w: World, s: Step, id: TaskId)
    ensures CommitsTask(w, s, id) ==> HasCommitter(w, id)
  {
    if CommitsTask(w, s, id) {
      assert OnItsWay(w.runners[s.run]);
    }
  }

  lemma {:induction false} StaysWithoutCommitter(w: World, steps: seq<Step>, id: TaskId)
    requires WorldInv(w) && IsTerminal(w, id) && !HasCommitter(w, id)
    ensures id in After(w, steps).db.tasks && After(w, steps).db.tasks[id] == w.db.tasks[id]
    ensures !HasCommitter(After(w, steps), id)
  {
    if steps != [] {
      var before, s := After(w, steps[..|steps| - 1]), steps[|steps| - 1];
      StaysWithoutCommitter(w, steps[..|steps| - 1], id);
      AfterKeeps(w, steps[..|steps| - 1]);
      NoNewCommitter(before, s, id);
      OnlyCommittersCommit(before, s, id);
      TerminalStep(before, s, id);
    }
  }

  lemma {:induction false} FirstStep(w: World, s: Step, rest: seq<Step>)
    ensures After(w, [s] + rest) == After(Do(w, s), rest)
    decreases |rest|
  {
    var all := [s] + rest;
    if rest == [] {
      assert all[..0] == [] && all == [s];
    } else {
      var n := |rest| - 1;
      assert all[..|all| - 1] == [s] + rest[..n];
      FirstStep(w, s, rest[..n]);
    }
  }

  /** How many steps the runner has to go. */
  function ToGo(pc: Pc): nat {
    match pc
    case CheckKey => 5
    case CheckRow => 4
    case Executing => 3
    case RecheckKey => 2
    case RecheckRow => 1
    case _ => 0
  }

  /** The next step of a runner whose reads find nothing. */
  function NextStep(run: RunId, pc: Pc): Step {
    match pc
    case CheckKey => ReadKey(run, false)
    case CheckRow => ReadRow(run)
    case Executing => RunTool(run, NoRecommendations)
    case RecheckKey => ReadKey(run, false)
    case RecheckRow => ReadRow(run)
    case _ => CommitRun(run, false, true)
  }

  lemma RunnerAdvances(w: World, run: RunId)
    requires WorldInv(w) && run in w.runners && OnItsWay(w.runners[run]) && w.runners[run].pc != Committing
    requires w.runners[run].task in w.db.tasks && w.db.tasks[w.runners[run].task].status != CancelRequested
    ensures var w' := Do(w, NextStep(run, w.runners[run].pc));
            && w'.db == w.db && run in w'.runners && w'.runners[run].task == w.runners[run].task
            && OnItsWay(w'.runners[run]) && ToGo(w'.runners[run].pc) < ToGo(w.runners[run].pc)
  {
    assert Stands(Runners, w);
    assert RunnerOk(w.db, w.runners[run]);
  }

  /** Whatever its runner has still to do before its commit, it can do all of it, and then the task is discarded. */
  lemma {:induction false} CommitterDiscards(w: World, run: RunId) returns (steps: seq<Step>)
    requires WorldInv(w) && run in w.runners && OnItsWay(w.runners[run]) && IsTerminal(w, w.runners[run].task)
    ensures var id := w.runners[run].task;
            id in After(w, steps).db.tasks && After(w, steps).db.tasks[id].status == Discarded != w.db.tasks[id].status
    decreases ToGo(w.runners[run].pc)
  {
    var s := NextStep(run, w.runners[run].pc);
    if w.runners[run].pc == Committing {
      assert Stands(Runners, w);
      assert RunnerOk(w.db, w.runners[run]);
      steps := [s] + [];
      FirstStep(w, s, []);
      TerminalStep(w, s, w.runners[run].task);
    } else {
      RunnerAdvances(w, run);
      StepKeeps(w, s);
      var rest := CommitterDiscards(Do(w, s), run);
      FirstStep(w, s, rest);
      steps := [s] + rest;
    }
  }

  /** A terminal status is final if and only if the task has no runner on its way to commit. */
  lemma FinalIff(w: World, id: TaskId)
    requires Reachable(w) && IsTerminal(w, id)
    ensures (forall steps :: id in After(w, steps).db.tasks && After(w, steps).db.tasks[id].status == w.db.tasks[id].status)
            <==> !HasCommitter(w, id)
  {
    ReachableInv(w);
    if HasCommitter(w, id) {
      var run :| run in w.runners && w.runners[run].task == id && OnItsWay(w.runners[run]);
      var steps := CommitterDiscards(w, run);
      assert After(w, steps).db.tasks[id].status != w.db.tasks[id].status;
    } else {
      forall steps ensures id in After(w, steps).db.tasks && After(w, steps).db.tasks[id].status == w.db.tasks[id].status {
        StaysWithoutCommitter(w, steps, id);
      }
    }
  }

  /** Some run discards a cancelled task if and only if it has a runner on its way to commit. */
  lemma CancelledDiscardedIff(w: World, id: TaskId)
    requires Reachable(w) && id in w.db.tasks && w.db.tasks[id].status == Cancelled
    ensures (exists steps :: id in After(w, steps).db.tasks && After(w, steps).db.tasks[id].status == Discarded)
            <==> HasCommitter(w, id)
  {
    ReachableInv(w);
    if HasCommitter(w, id) {
      var run :| run in w.runners && w.runners[run].task == id && OnItsWay(w.runners[run]);
      var steps := CommitterDiscards(w, run);
      assert After(w, steps).db.tasks[id].status == Discarded;
    } else {
      FinalIff(w, id);
    }
  }

  /** Succeeded, failed and discarded tasks have no such runner, so their statuses are final. */
  lemma OnlyCancelledHasCommitter(w: World, id: TaskId)
    requires Reachable(w) && IsTerminal(w, id) && w.db.tasks[id].status != Cancelled
    ensures !HasCommitter(w, id)
  {
    ReachableInv(w);
    forall run | run in w.runners && w.runners[run].task == id ensures !OnItsWay(w.runners[run]) {
      assert RunnerOk(w.db, w.runners[run]);
    }
  }
}
