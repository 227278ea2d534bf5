/** What every run of a session promises, however its steps interleave. */
module Theorems {
  import opened Rows
  import opened Transactions
  import opened History
  import opened Refinement
  import opened TaskSteps
  import opened InterruptSteps
  import opened ReplySteps
  import opened Runs
  import opened RunInvariant
  import opened RunSafety
  import opened LogTheorems
  import ConstraintSteps
  import EventFeed
  import IV = InputValidation

  lemma ReachableInv(w: World)
    requires Reachable(w)
    ensures WorldInv(w) && Inv(w.db) && RunnersOk(w) && RequestsOk(w) && PatchesOk(w.db, w.patches)
    ensures MarksOk(w) && PacketsOk(w) && w.conflicts == {}
  {
    var r :| EndsIn(r, w);
    assert LeadsTo(r, |r.steps|, w);
    RunsAreSafe(r.limits, r.preference, r.steps[..|r.steps|]);
    Open(w);
  }

  lemma ReachableStep(w: World, s: Step)
    requires Reachable(w)
    ensures Reachable(Do(w, s))
  {
    var r :| EndsIn(r, w);
    assert LeadsTo(r, |r.steps|, w);
    var longer := Run(r.limits, r.preference, r.steps + [s]);
    assert longer.steps[..|longer.steps|][..|r.steps|] == r.steps[..|r.steps|];
    assert EndsIn(longer, Do(w, s));
  }

  lemma {:induction false} ReachableAfter(w: World, steps: seq<Step>)
    requires Reachable(w)
    ensures Reachable(After(w, steps))
  {
    if steps != [] {
      ReachableAfter(w, steps[..|steps| - 1]);
      ReachableStep(After(w, steps[..|steps| - 1]), steps[|steps| - 1]);
    }
  }

  lemma {:induction false} AfterKeeps(w: World, steps: seq<Step>)
    requires WorldInv(w)
    ensures WorldInv(After(w, steps))
  {
    if steps != [] {
      AfterKeeps(w, steps[..|steps| - 1]);
      StepKeeps(After(w, steps[..|steps| - 1]), steps[|steps| - 1]);
    }
  }

  // ---------- The log only grows ----------

  lemma RequestAppends(w: World, s: Step)
    ensures w.db.outbox <= DoRequest(w, s).db.outbox
  {
    if s.Execute? && s.req in w.requests && w.requests[s.req].command.Interrupt? {
      var Interrupt(e, turn, reason) := w.requests[s.req].command;
      if Enumerates(s.rows, TasksToCancel(w.db, turn)) && RegisterInterrupt(w.db, turn, reason, e, s.rows).Commit? {
        RegisterShape(w.db, turn, reason, e, s.rows);
        ConstraintSteps.RequestAllExtends(w.db, turn, s.rows);
      }
    }
  }

  lemma ClaimAppends(db: SessionDb, id: TaskId, newCall: CallId)
    requires ClaimTask(db, id, newCall).Commit?
    ensures db.outbox <= ClaimTask(db, id, newCall).db.outbox
  {}

  lemma ComposeAppends(db: SessionDb, turn: TurnId, ctx: nat, newTurn: TurnId, taskRows: seq<TaskId>, callRows: seq<CallId>)
    requires Inv(db) && ComposeRows(PlanCompose(db, turn, ctx), taskRows, callRows)
    requires ComposeReply(db, turn, ctx, newTurn, taskRows, callRows).Commit?
    ensures db.outbox <= ComposeReply(db, turn, ctx, newTurn, taskRows, callRows).db.outbox
  {
    NeverConflicts(db, turn, ctx, newTurn, taskRows, callRows);
    ComposeAddsNoInterrupt(db, turn, ctx, newTurn, taskRows, callRows);
  }

  lemma PlanAppends(limits: IV.Limits, db: SessionDb, packet: Packet, newTask: TaskId)
    requires CreateTasks(limits, db, packet, Decide(packet), [newTask]).Commit?
    ensures db.outbox <= CreateTasks(limits, db, packet, Decide(packet), [newTask]).db.outbox
  {
    CreateTasksGrows(limits, db, packet, newTask);
  }

  lemma MessageAppends(w: World, s: Step)
    requires WorldInv(w)
    ensures w.db.outbox <= DoMessage(w, s).db.outbox
  {
    Open(w);
    match s
    case PlanMessage(packet, newTask) =>
      if CreateTasks(w.limits, w.db, packet, Decide(packet), [newTask]).Commit? {
        PlanAppends(w.limits, w.db, packet, newTask);
      }
    case ComposeMessage(turn, ctx, newTurn, taskRows, callRows) =>
      if ComposeRows(PlanCompose(w.db, turn, ctx), taskRows, callRows)
         && ComposeReply(w.db, turn, ctx, newTurn, taskRows, callRows).Commit? {
        ComposeAppends(w.db, turn, ctx, newTurn, taskRows, callRows);
      }
    case TaskMessage(task, run, newCall) =>
      if ClaimTask(w.db, task, newCall).Commit? {
        ClaimAppends(w.db, task, newCall);
      }
    case _ =>
  }

  lemma CommitAppends(db: SessionDb, id: TaskId, call: Option<CallId>, output: ToolOutput, cancelSeen: bool)
    ensures db.outbox <= CommitResult(db, id, call, output, cancelSeen).outbox
  {}

  lemma FailAppends(db: SessionDb, id: TaskId, call: Option<CallId>)
    ensures db.outbox <= FailTask(db, id, call).outbox
  {}

  lemma RunnerAppends(w: World, s: Step)
    ensures w.db.outbox <= DoRunner(w, s).db.outbox
  {
    match s
    case CommitRun(run, seen, _) =>
      if CommitReady(w, run, seen) {
        var r := w.runners[run];
        CommitAppends(w.db, r.task, r.call, r.output.value, r.cancelSeen || seen);
      }
    case Fail(run) =>
      if run in w.runners {
        FailAppends(w.db, w.runners[run].task, w.runners[run].call);
      }
    case _ =>
  }

  /** Later logs extend earlier ones: a row that has been written is never changed or taken back. */
  lemma {:induction false} LogGrows(w: World, steps: seq<Step>)
    requires WorldInv(w)
    ensures w.db.outbox <= After(w, steps).db.outbox
  {
    if steps != [] {
      var before, s := After(w, steps[..|steps| - 1]), steps[|steps| - 1];
      LogGrows(w, steps[..|steps| - 1]);
      AfterKeeps(w, steps[..|steps| - 1]);
      RequestAppends(before, s);
      MessageAppends(before, s);
      RunnerAppends(before, s);
    }
  }

  lemma BodiesPrefix(outbox: seq<EventRow>, outbox': seq<EventRow>)
    requires outbox <= outbox'
    ensures Bodies(outbox')[..|outbox|] == Bodies(outbox)
  {}

  // ---------- The log and the tables ----------

  /** Event sequence numbers are exactly 1..last_event_seq, every row has its own key, the versions are counts of
    events, and each task is where its last lifecycle event put it. */
  lemma EventLogRefinement(w: World)
    requires Reachable(w)
    ensures w.db.lastSeq == |w.db.outbox|
    ensures forall k :: 0 <= k < |w.db.outbox| ==> w.db.outbox[k].seqNo == k + 1
    ensures forall j, k :: 0 <= j < k < |w.db.outbox| ==> w.db.outbox[j].key != w.db.outbox[k].key
    ensures w.db.ctx == BumpCount(Bodies(w.db.outbox))
    ensures ActivePreference(w.db) == Some(1 + PatchCount(Bodies(w.db.outbox)))
    ensures forall id :: id in w.db.tasks <==> LastStatus(Bodies(w.db.outbox), id).Some?
    ensures forall id :: id in w.db.tasks ==> LastStatus(Bodies(w.db.outbox), id) == Some(w.db.tasks[id].status)
  {
    ReachableInv(w);
    VersionsFromLog(w.db);
    assert Holds(Log, w.db);
    forall id
      ensures id in w.db.tasks <==> LastStatus(Bodies(w.db.outbox), id).Some?
      ensures id in w.db.tasks ==> LastStatus(Bodies(w.db.outbox), id) == Some(w.db.tasks[id].status)
    {
      StatusFromLog(w.db, id);
    }
  }

  lemma VersionsFromLog(db: SessionDb)
    requires Inv(db)
    ensures db.ctx == BumpCount(Bodies(db.outbox))
    ensures ActivePreference(db) == Some(1 + PatchCount(Bodies(db.outbox)))
  {
    LogAspects(db);
    ActiveIsLatest(db);
    FoldCounts(Bodies(db.outbox));
    Started(Bodies(db.outbox));
  }

  lemma StatusFromLog(db: SessionDb, id: TaskId)
    requires Holds(Log, db) && Holds(Tasks, db)
    ensures id in db.tasks <==> LastStatus(Bodies(db.outbox), id).Some?
    ensures id in db.tasks ==> LastStatus(Bodies(db.outbox), id) == Some(db.tasks[id].status)
  {
    FoldStatus(Bodies(db.outbox), id);
  }

  /** What the event feed takes for granted about the log: rows are numbered from one, the session row tells how many
    there are, and every later log extends the earlier one. */
  lemma FeedsTheLog(w: World, steps: seq<Step>)
    requires Reachable(w)
    ensures EventFeed.Numbered(w.db.outbox) && w.db.lastSeq == |w.db.outbox|
    ensures EventFeed.Numbered(After(w, steps).db.outbox) && w.db.outbox <= After(w, steps).db.outbox
  {
    ReachableInv(w);
    AfterKeeps(w, steps);
    Open(After(w, steps));
    LogGrows(w, steps);
    assert Holds(Log, w.db) && Holds(Log, After(w, steps).db);
  }

  /** Every event of every run is fresh, whatever interrupts, patches, turns and redeliveries came before it. */
  lemma FreshEvents(w: World)
    requires Reachable(w)
    ensures forall k :: 0 <= k < |w.db.outbox| ==> IsFresh(Bodies(w.db.outbox), k)
  {
    ReachableInv(w);
    LogAspects(w.db);
    forall k | 0 <= k < |w.db.outbox| ensures IsFresh(Bodies(w.db.outbox), k) {
      Freshness(Bodies(w.db.outbox), k);
    }
  }

  // ---------- Tasks ----------

  /** A task keeps its identity for ever, its status only rises, and final statuses are final. */
  lemma TasksOnlyRise(w: World, steps: seq<Step>, id: TaskId)
    requires Reachable(w) && id in w.db.tasks
    ensures id in After(w, steps).db.tasks
    ensures Rises(w.db.tasks[id].status, After(w, steps).db.tasks[id].status)
    ensures StaysFinal(w.db.tasks[id].status, After(w, steps).db.tasks[id].status)
  {
    ReachableInv(w);
    AfterKeeps(w, steps);
    Open(After(w, steps));
    LogGrows(w, steps);
    var db, db' := w.db, After(w, steps).db;
    TaskMatchesView(db, id);
    LogAspects(db');
    BodiesPrefix(db.outbox, db'.outbox);
    StatusOnlyRises(Bodies(db'.outbox), |db.outbox|, id);
    assert Holds(Tasks, db');
  }

  /** Under any redelivery a task is claimed at most once, has at most one live runner, and changes its status at
    most four times. */
  lemma SingleRunner(w: World, id: TaskId)
    requires Reachable(w) && id in w.db.tasks
    ensures w.db.tasks[id].attempt <= 1
    ensures forall r, q :: r in w.runners && q in w.runners && w.runners[r].task == id && w.runners[q].task == id ==> r == q
    ensures MoveCount(Bodies(w.db.outbox), id) <= Rank(w.db.tasks[id].status) <= 4
  {
    ReachableInv(w);
    TaskMatchesView(w.db, id);
    LogAspects(w.db);
    FoldStatus(Bodies(w.db.outbox), id);
  }

  /** However often the plan message of a turn is rebuilt, only the itinerary version it aims at may differ. */
  lemma PacketsDifferOnlyInTarget(w: World, p: Packet, q: Packet)
    requires Reachable(w) && p in w.packets && q in w.packets && p.turn == q.turn
    ensures p == q.(itin := p.itin)
  {
    ReachableInv(w);
    PacketMatchesTurn(w.db, p);
    PacketMatchesTurn(w.db, q);
  }

  lemma PacketMatchesTurn(db: SessionDb, packet: Packet)
    requires Inv(db) && PacketOk(db, packet)
    ensures packet.turn in ViewOf(db).turns
    ensures packet.ctx == ViewOf(db).turns[packet.turn].ctx && packet.pref == ViewOf(db).turns[packet.turn].pref
  {
    assert Holds(Log, db);
    var i :| 0 <= i < |db.outbox| && db.outbox[i].body == TurnFinalized(packet.turn, packet.ctx, packet.pref);
    FinalizedTurnStays(Bodies(db.outbox), i);
  }

  function TasksOf(db: SessionDb, turn: TurnId): set<TaskId> {
    set t | t in db.tasks && db.tasks[t].turn == Some(turn)
  }

  lemma AtMostOne<T>(s: set<T>)
    requires forall x, y :: x in s && y in s ==> x == y
    ensures |s| <= 1
  {
    if s != {} {
      var x :| x in s;
      assert s == {x};
    }
  }

  lemma TargetsNearBase(db: SessionDb, turn: TurnId)
    requires Inv(db)
    ensures forall t :: t in TasksOf(db, turn) ==>
              && turn in ViewOf(db).turns && db.tasks[t].itin.Some?
              && ViewOf(db).turns[turn].base <= db.tasks[t].itin.value <= ViewOf(db).turns[turn].base + 1
              && (db.tasks[t].itin.value == ViewOf(db).turns[turn].base + 1 ==> ViewOf(db).turns[turn].replied)
    ensures forall t, u :: t in TasksOf(db, turn) && u in TasksOf(db, turn) && db.tasks[t].itin == db.tasks[u].itin ==> t == u
  {
    forall t | t in TasksOf(db, turn)
      ensures turn in ViewOf(db).turns && TaskMatches(db.tasks[t], ViewOf(db).tasks[t])
      ensures TaskOk(ViewOf(db), ViewOf(db).tasks[t])
    {
      TaskMatchesView(db, t);
    }
    InvIsSound(db);
    assert TasksOk(ViewOf(db));
    assert Holds(Tasks, db);
  }

  /** However often plan messages are rebuilt and delivered, a turn has at most one task before its reply and at
    most two in all. */
  lemma RedeliveryBound(w: World, turn: TurnId)
    requires Reachable(w)
    ensures |TasksOf(w.db, turn)| <= 2
    ensures (forall c :: !KeyTaken(w.db.outbox, KeyReply(turn, c))) ==> |TasksOf(w.db, turn)| <= 1
  {
    ReachableInv(w);
    TargetsNearBase(w.db, turn);
    assert Holds(ReplyKeys, w.db);
    if TasksOf(w.db, turn) != {} {
      TwoTargets(w.db, TasksOf(w.db, turn), ViewOf(w.db).turns[turn].base);
    }
  }

  /** Tasks with different targets, each aimed at one of two versions, are at most two. */
  lemma TwoTargets(db: SessionDb, all: set<TaskId>, base: nat)
    requires forall t :: t in all ==> t in db.tasks && db.tasks[t].itin in {Some(base), Some(base + 1)}
    requires forall t, u :: t in all && u in all && db.tasks[t].itin == db.tasks[u].itin ==> t == u
    ensures |all| <= 2
    ensures (forall t :: t in all ==> db.tasks[t].itin == Some(base)) ==> |all| <= 1
  {
    var first := set t | t in all && db.tasks[t].itin == Some(base);
    var second := set t | t in all && db.tasks[t].itin == Some(base + 1);
    assert all == first + second;
    AtMostOne(first);
    AtMostOne(second);
    if forall t :: t in all ==> db.tasks[t].itin == Some(base) {
      assert second == {};
    }
  }

  /** A task has at most one tool call, made for it and on its input.  The call succeeded, failed or was discarded
    exactly when the task did, and then holds the task's result; before that it is running, and the call of a cancelled
    task is cancelled or still running. */
  lemma CallsAgreeWithTasks(w: World, c: CallId)
    requires Reachable(w) && c in w.db.calls
    ensures var call := w.db.calls[c];
            && call.task in w.db.tasks && call.input == w.db.tasks[call.task].input
            && Some(call.ctx) == w.db.tasks[call.task].ctx && Some(call.pref) == w.db.tasks[call.task].pref
            && (call.status == CallSucceeded <==> w.db.tasks[call.task].status == Succeeded)
            && (call.status == CallDiscarded <==> w.db.tasks[call.task].status == Discarded)
            && (call.status == CallFailed <==> w.db.tasks[call.task].status == Failed)
            && (call.status == CallCancelled ==> w.db.tasks[call.task].status == Cancelled)
            && call.status != CallPending && w.db.tasks[call.task].status != Queued
            && call.output == w.db.tasks[call.task].result
            && (call.output.Some? <==> call.status == CallSucceeded || call.status == CallDiscarded)
            && (forall d :: d in w.db.calls && w.db.calls[d].task == call.task ==> d == c)
  {
    ReachableInv(w);
    assert Holds(Calls, w.db);
    assert CallOk(w.db.tasks, w.db.calls[c]);
    TaskMatchesView(w.db, w.db.calls[c].task);
  }

  // ---------- Cancellation ----------

  /** At commit the four-way discard test equals "the context is no longer current", so what the reads of the
    cancel marks returned never changes the outcome. */
  lemma CancellationIsStaleness(w: World, run: RunId, seen: bool)
    requires Reachable(w) && CommitReady(w, run, seen)
    ensures var r := w.runners[run];
            && r.task in w.db.tasks
            && (MustDiscard(w.db, w.db.tasks[r.task], r.cancelSeen || seen) <==> w.db.tasks[r.task].ctx != Some(w.db.ctx))
            && RunResult(w, run, seen) == CommitResult(w.db, r.task, r.call, r.output.value, false)
  {
    ReachableInv(w);
    var r := w.runners[run];
    assert RunnerOk(w.db, r);
    DiscardIsStaleness(w.db, r.task, r.cancelSeen || seen);
    DiscardIsStaleness(w.db, r.task, false);
  }

  /** Once an interrupt on a turn has been accepted, none of its tasks is queued or running, and the log never
    again shows work on it. */
  lemma InterruptedTurnIsOver(w: World, i: nat)
    requires Reachable(w) && i < |w.db.outbox| && w.db.outbox[i].body.InterruptAccepted?
    ensures var turn := w.db.outbox[i].body.turn;
            && turn in w.db.turns && w.db.turns[turn].status == Interrupted
            && (forall id :: id in TasksOf(w.db, turn) ==> w.db.tasks[id].status !in {Queued, Running})
            && (forall j :: i < j < |w.db.outbox| ==>
                  !WorksOn(Fold(Bodies(w.db.outbox)[..j]), w.db.outbox[j].body, turn))
  {
    ReachableInv(w);
    var log, turn := Bodies(w.db.outbox), w.db.outbox[i].body.turn;
    LogAspects(w.db);
    InterruptedStays(log, i);
    assert Holds(Turns, w.db);
    forall id | id in TasksOf(w.db, turn) ensures w.db.tasks[id].status !in {Queued, Running} {
      TaskMatchesView(w.db, id);
    }
    forall j | i < j < |w.db.outbox| ensures !WorksOn(Fold(log[..j]), w.db.outbox[j].body, turn) {
      InterruptSafety(log, i, j);
    }
  }
}
