/** Which turns can still be answered.

  A worker that crashes leaves its task running for ever, and a failed task is not planned again.  So not every turn of
  the current context is answered in the end.  Here is exactly when some run still answers it.
 */
module Answers {
  import opened Rows
  import opened Transactions
  import opened History
  import opened Refinement
  import opened TaskSteps
  import opened InterruptSteps
  import opened ReplySteps
  import opened Runs
  import opened RunInvariant
  import opened RunSafety
  import opened LogTheorems
  import opened Theorems
  import opened ReplyTheorems
  import opened ReplyContents
  import opened WorkOutcomes
  import opened FinalStatuses
  import IV = InputValidation

  /** A user turn of the session's context. */
  predicate IsCurrentTurn(db: SessionDb, turn: TurnId) {
    turn in db.turns && db.turns[turn].kind == UserText && db.turns[turn].ctx == db.ctx
  }

  predicate IsAnswered(db: SessionDb, turn: TurnId, ctx: nat) {
    KeyTaken(db.outbox, KeyReply(turn, ctx))
  }

  /** The task is done, waits for a runner, or has one that may still commit. */
  ghost predicate MaySucceed(w: World, id: TaskId) {
    && id in w.db.tasks
    && match w.db.tasks[id].status
       case Succeeded => true
       case Queued => true
       case Running => HasCommitter(w, id)
       case _ => false
  }

  /** The turn's task would be accepted. */
  ghost predicate MayBePlanned(w: World, turn: TurnId)
    requires turn in w.db.turns
  {
    && TasksOf(w.db, turn) == {}
    && forall p :: IsActive(w.db, p) ==> TextsFit(w.limits, w.db.preferences[p].payload, w.db.turns[turn].text)
  }

  ghost predicate CanBeAnswered(w: World, turn: TurnId)
    requires turn in w.db.turns
  {
    || IsAnswered(w.db, turn, w.db.ctx)
    || (exists id :: id in TasksOf(w.db, turn) && MaySucceed(w, id))
    || MayBePlanned(w, turn)
  }

  // ---------- A run that answers ----------

  lemma {:induction false} FreshIn(ids: set<nat>) returns (n: nat)
    ensures forall x :: x in ids ==> x < n
  {
    n := 0;
    if ids != {} {
      var x :| x in ids;
      var m := FreshIn(ids - {x});
      n := if m <= x then x + 1 else m;
      assert forall y :: y in ids ==> y == x || y in ids - {x};
    }
  }

  /** The turn's task in its own context. */
  predicate IsTaskOf(db: SessionDb, turn: TurnId, id: TaskId) {
    id in db.tasks && db.tasks[id].turn == Some(turn) && db.tasks[id].ctx == Some(db.ctx)
  }

  /** The next steps answer the turn. */
  ghost predicate Answer(w: World, steps: seq<Step>, turn: TurnId, ctx: nat) {
    IsAnswered(After(w, steps).db, turn, ctx)
  }

  lemma ComposeAnswers(w: World, turn: TurnId, id: TaskId) returns (s: Step)
    requires Reachable(w) && IsTaskOf(w.db, turn, id) && w.db.tasks[id].status == Succeeded
    requires !IsAnswered(w.db, turn, w.db.ctx)
    ensures IsAnswered(Do(w, s).db, turn, w.db.ctx)
  {
    ReachableInv(w);
    var c := PlanIsBuild(w.db, turn, id);
    var reply := FreshIn(w.db.turns.Keys);
    s := ComposeMessage(turn, w.db.ctx, reply, [id], [c]);
    ComposeIsCarriedOut(w, turn, w.db.ctx, reply, [id], [c]);
    SucceededHasResult(w.db, turn, id);
    RepliedIsAnswered(w.db, Do(w, s).db, turn, reply);
  }

  lemma RepliedIsAnswered(db: SessionDb, db': SessionDb, turn: TurnId, reply: TurnId)
    requires IsReplied(db, db', turn, reply)
    ensures IsAnswered(db', turn, db.ctx)
  {
    var id, c, d :| HasResult(db, turn, id) && WritesReply(db, db', turn, reply, id, c, d);
    assert db'.outbox[|db'.outbox| - 1].key == KeyReply(turn, db.ctx);
  }

  lemma SucceededAnswers(w: World, turn: TurnId, id: TaskId) returns (steps: seq<Step>)
    requires Reachable(w) && IsTaskOf(w.db, turn, id) && w.db.tasks[id].status == Succeeded
    ensures Answer(w, steps, turn, w.db.ctx)
  {
    if IsAnswered(w.db, turn, w.db.ctx) {
      steps := [];
    } else {
      var s := ComposeAnswers(w, turn, id);
      steps := [s] + [];
      FirstStep(w, s, []);
    }
  }

  lemma {:induction false} RunnerAnswers(w: World, turn: TurnId, id: TaskId, run: RunId) returns (steps: seq<Step>)
    requires Reachable(w) && IsTaskOf(w.db, turn, id) && w.db.tasks[id].status == Running
    requires run in w.runners && w.runners[run].task == id && OnItsWay(w.runners[run])
    ensures Answer(w, steps, turn, w.db.ctx)
    decreases ToGo(w.runners[run].pc)
  {
    ReachableInv(w);
    var s := NextStep(run, w.runners[run].pc);
    ReachableStep(w, s);
    var rest: seq<Step>;
    if w.runners[run].pc == Committing {
      assert RunnerOk(w.db, w.runners[run]);
      CommitIsCarriedOut(w, run, false, true);
      rest := SucceededAnswers(Do(w, s), turn, id);
    } else {
      RunnerAdvances(w, run);
      rest := RunnerAnswers(Do(w, s), turn, id, run);
    }
    FirstStep(w, s, rest);
    steps := [s] + rest;
  }

  lemma QueuedAnswers(w: World, turn: TurnId, id: TaskId) returns (steps: seq<Step>)
    requires Reachable(w) && IsTaskOf(w.db, turn, id) && w.db.tasks[id].status == Queued
    ensures Answer(w, steps, turn, w.db.ctx)
  {
    var run := FreshIn(w.runners.Keys);
    var call := FreshIn(w.db.calls.Keys);
    var s := TaskMessage(id, run, call);
    ClaimIsCarriedOut(w, id, run, call);
    ReachableStep(w, s);
    var rest := RunnerAnswers(Do(w, s), turn, id, run);
    FirstStep(w, s, rest);
    steps := [s] + rest;
  }

  lemma {:induction false} TurnHasEvent(log: seq<EventBody>, t: TurnId) returns (k: nat)
    requires Legal(log) && t in Fold(log).turns && Fold(log).turns[t].kind == UserText
    ensures k < |log| && log[k] == TurnFinalized(t, Fold(log).turns[t].ctx, Fold(log).turns[t].pref)
  {
    var n := |log| - 1;
    Started(log[..n]);
    if log[n].TurnFinalized? && log[n].turn == t {
      k := n;
    } else {
      k := TurnHasEvent(log[..n], t);
    }
  }

  /** The event of a current turn carries the session's versions. */
  lemma CurrentTurnHasEvent(db: SessionDb, turn: TurnId) returns (k: nat)
    requires Inv(db) && IsCurrentTurn(db, turn)
    ensures k < |db.outbox| && db.outbox[k].body == TurnFinalized(turn, db.ctx, ViewOf(db).pref)
    ensures IsActive(db, ViewOf(db).pref)
  {
    InvIsSound(db);
    ActiveIsLatest(db);
    assert Holds(Turns, db) && Holds(Log, db) && Holds(Counters, db);
    assert TurnMatches(db.turns[turn], ViewOf(db).turns[turn]);
    k := TurnHasEvent(Bodies(db.outbox), turn);
  }

  lemma PlannedIsQueued(db: SessionDb, db': SessionDb, packet: Packet, id: TaskId)
    requires AddsTask(db, db', packet, id) && packet.ctx == db.ctx
    ensures IsTaskOf(db', packet.turn, id) && db'.tasks[id].status == Queued && db'.ctx == db.ctx
  {}

  lemma NothingAnswers(w: World, turn: TurnId) returns (steps: seq<Step>)
    requires Reachable(w) && IsCurrentTurn(w.db, turn) && MayBePlanned(w, turn)
    ensures Answer(w, steps, turn, w.db.ctx)
  {
    ReachableInv(w);
    var k := CurrentTurnHasEvent(w.db, turn);
    var pref := ViewOf(w.db).pref;
    var packet := Packet(turn, w.db.ctx, pref, |w.db.itineraries|, w.db.preferences[pref].payload, w.db.turns[turn].text);
    var id := FreshIn(w.db.tasks.Keys);
    var s1, s2 := PublishTurn(k), PlanMessage(packet, id);
    TurnIsPublished(w, k);
    ReachableStep(w, s1);
    var w1 := Do(w, s1);
    assert forall t :: t in w1.db.tasks && IsFor(w1.db.tasks[t], packet) ==> t in TasksOf(w.db, turn);
    PlanIsCarriedOut(w1, packet, id);
    ReachableStep(w1, s2);
    PlannedIsQueued(w1.db, Do(w1, s2).db, packet, id);
    var rest := QueuedAnswers(Do(w1, s2), turn, id);
    FirstStep(w1, s2, rest);
    FirstStep(w, s1, [s2] + rest);
    steps := [s1] + ([s2] + rest);
  }

  lemma CurrentTurnsTask(db: SessionDb, turn: TurnId, id: TaskId)
    requires Inv(db) && IsCurrentTurn(db, turn) && id in TasksOf(db, turn)
    ensures IsTaskOf(db, turn, id)
  {
    TaskMatchesView(db, id);
    assert Holds(Turns, db);
    assert TurnMatches(db.turns[turn], ViewOf(db).turns[turn]);
  }

  lemma SomeRunAnswers(w: World, turn: TurnId) returns (steps: seq<Step>)
    requires Reachable(w) && IsCurrentTurn(w.db, turn) && CanBeAnswered(w, turn)
    ensures Answer(w, steps, turn, w.db.ctx)
  {
    ReachableInv(w);
    if IsAnswered(w.db, turn, w.db.ctx) {
      steps := [];
    } else if MayBePlanned(w, turn) {
      steps := NothingAnswers(w, turn);
    } else {
      var id :| id in TasksOf(w.db, turn) && MaySucceed(w, id);
      CurrentTurnsTask(w.db, turn, id);
      match w.db.tasks[id].status
      case Succeeded => steps := SucceededAnswers(w, turn, id);
      case Queued => steps := QueuedAnswers(w, turn, id);
      case Running =>
        var run :| run in w.runners && w.runners[run].task == id && OnItsWay(w.runners[run]);
        steps := RunnerAnswers(w, turn, id, run);
    }
  }

  // ---------- What an answer comes from ----------

  /** The sources of a version aimed at the version that their turn was written on. */
  predicate AtBase(v: View, link: Link) {
    forall id :: id in link.sources ==>
      id in v.tasks && v.tasks[id].turn in v.turns && v.turns[v.tasks[id].turn].base == v.tasks[id].itin
  }

  lemma AtBaseStays(v: View, e: EventBody, link: Link)
    requires v.pref > 0 && Allowed(v, e) && AtBase(v, link)
    ensures AtBase(Apply(v, e), link)
  {
    TurnsPersistKeeps(v, e);
  }

  lemma NewLinkAtBase(v: View, e: EventBody)
    requires Sound(v) && v.pref > 0 && Allowed(v, e) && e.ItineraryConfirmed?
    ensures AtBase(Apply(v, e), Apply(v, e).chain[|v.chain|])
  {
    var t := v.tasks[e.sources[0]].turn;
    forall id | id in e.sources ensures id in v.tasks && v.tasks[id].turn == t && v.turns[t].base == v.tasks[id].itin {
      assert IsSource(v, id, t);
      assert TaskOk(v, v.tasks[id]);
    }
  }

  lemma {:induction false} SourcesAtBase(log: seq<EventBody>, x: nat)
    requires Legal(log) && x < |Fold(log).chain|
    ensures AtBase(Fold(log), Fold(log).chain[x])
  {
    var n := |log| - 1;
    var v := Fold(log[..n]);
    LegalIsSound(log[..n]);
    Started(log[..n]);
    if x < |v.chain| {
      SourcesAtBase(log[..n], x);
      AtBaseStays(v, log[n], v.chain[x]);
    } else {
      NewLinkAtBase(v, log[n]);
    }
  }

  /** While a reply is being written, the newest version was made from a task of the turn that is answered. */
  lemma {:induction false} ReplyingToSource(log: seq<EventBody>)
    requires Legal(log) && Fold(log).batch.Replying?
    ensures var v := Fold(log);
            && v.chain != [] && v.chain[|v.chain| - 1].sources != [] && v.chain[|v.chain| - 1].sources[0] in v.tasks
            && v.tasks[v.chain[|v.chain| - 1].sources[0]].turn == v.batch.turn
  {
    var n := |log| - 1;
    Started(log[..n]);
    assert log[n].ItineraryConfirmed?;
  }

  predicate ComesFrom(context: ReplyContext, v: View, turn: TurnId) {
    && context.sourceTasks != [] && context.sourceTasks[0] in v.tasks && v.tasks[context.sourceTasks[0]].turn == turn
  }

  lemma ComesFromStays(v: View, e: EventBody, context: ReplyContext, turn: TurnId)
    requires v.pref > 0 && Allowed(v, e) && ComesFrom(context, v, turn)
    ensures ComesFrom(context, Apply(v, e), turn)
  {}

  lemma {:induction false} ReplyComesFrom(log: seq<EventBody>, k: nat)
    requires Legal(log) && k < |log| && log[k].ReplyCreated?
    ensures ComesFrom(log[k].context, Fold(log), log[k].parent)
  {
    var n := |log| - 1;
    Started(log[..n]);
    if k < n {
      ReplyComesFrom(log[..n], k);
      ComesFromStays(Fold(log[..n]), log[n], log[k].context, log[k].parent);
    } else {
      ReplyingToSource(log[..n]);
    }
  }

  lemma ReplyEvent(db: SessionDb, turn: TurnId, ctx: nat) returns (k: nat)
    requires Inv(db) && IsAnswered(db, turn, ctx)
    ensures k < |db.outbox| && db.outbox[k].body.ReplyCreated? && db.outbox[k].body.parent == turn
  {
    assert Holds(Log, db);
    k :| 0 <= k < |db.outbox| && db.outbox[k].key == KeyReply(turn, ctx);
    assert KeyFits(db.outbox[k]);
  }

  lemma SourceOfReply(log: seq<EventBody>, k: nat) returns (id: TaskId)
    requires Legal(log) && k < |log| && log[k].ReplyCreated?
    ensures var v := Fold(log);
            && id in v.tasks && v.tasks[id].turn == log[k].parent && v.tasks[id].status == Succeeded
            && log[k].parent in v.turns && v.tasks[id].itin == v.turns[log[k].parent].base
  {
    var context := log[k].context;
    ReplyComesFrom(log, k);
    ReplyNamesVersion(log, k);
    id := context.sourceTasks[0];
    assert id in Fold(log).chain[context.itinerary - 1].sources;
    SourcesAtBase(log, context.itinerary - 1);
    LegalIsSound(log);
    assert LinkOk(Fold(log), context.itinerary - 1);
  }

  /** An answered turn has a succeeded task, aimed at the version that the turn was written on. */
  lemma AnswerHasSource(db: SessionDb, turn: TurnId, ctx: nat) returns (id: TaskId)
    requires Inv(db) && IsAnswered(db, turn, ctx)
    ensures id in TasksOf(db, turn) && db.tasks[id].status == Succeeded
    ensures turn in ViewOf(db).turns && db.tasks[id].itin == Some(ViewOf(db).turns[turn].base)
  {
    LogAspects(db);
    var k := ReplyEvent(db, turn, ctx);
    id := SourceOfReply(Bodies(db.outbox), k);
    assert Holds(Tasks, db);
    assert TaskMatches(db.tasks[id], ViewOf(db).tasks[id]);
  }

  // ---------- What no step does ----------

  /** Texts and payloads stay. */
  ghost predicate RowsKept(db: SessionDb, db': SessionDb) {
    && (forall t :: t in db.turns ==> t in db'.turns && db'.turns[t].text == db.turns[t].text)
    && PayloadsPersist(db.preferences, db'.preferences)
  }

  /** The task was there before, on the same input, and if it has succeeded it had before. */
  predicate TaskKept(db: SessionDb, db': SessionDb, id: TaskId) {
    id in db'.tasks ==>
      && id in db.tasks && db'.tasks[id].input == db.tasks[id].input
      && (db'.tasks[id].status == Succeeded ==> db.tasks[id].status == Succeeded)
  }

  lemma SameRowsAreKept(db: SessionDb, db': SessionDb)
    requires db'.turns == db.turns && db'.preferences == db.preferences
    ensures RowsKept(db, db')
  {}

  lemma FinalizeRows(db: SessionDb, id: TurnId, text: string, e: string)
    requires FinalizeTurn(db, id, text, e).Commit?
    ensures RowsKept(db, FinalizeTurn(db, id, text, e).db)
  {}

  lemma PatchRows(db: SessionDb, baseCtx: nat, patch: Payload, source: Option<TurnId>, e: string)
    requires UpdatePreference(db, baseCtx, patch, source, e).Commit?
    ensures RowsKept(db, UpdatePreference(db, baseCtx, patch, source, e).db)
  {}

  lemma InterruptRows(db: SessionDb, turn: TurnId, reason: string, e: string, rows: seq<TaskId>)
    requires Enumerates(rows, TasksToCancel(db, turn)) && RegisterInterrupt(db, turn, reason, e, rows).Commit?
    ensures RowsKept(db, RegisterInterrupt(db, turn, reason, e, rows).db)
  {
    RegisterShape(db, turn, reason, e, rows);
    InterruptsIsRequestable(db, turn, rows);
    RequestAllChanges(db, turn, rows);
  }

  lemma RequestRows(w: World, s: Step)
    ensures RowsKept(w.db, DoRequest(w, s).db)
  {
    SameRowsAreKept(w.db, w.db);
    if s.Execute? && s.req in w.requests {
      match w.requests[s.req].command
      case Finalize(e, text) =>
        if FinalizeTurn(w.db, s.newTurn, text, e).Commit? { FinalizeRows(w.db, s.newTurn, text, e); }
      case Patch(e, base, patch, source) =>
        if UpdatePreference(w.db, base, patch, source, e).Commit? { PatchRows(w.db, base, patch, source, e); }
      case Interrupt(e, turn, reason) =>
        if Enumerates(s.rows, TasksToCancel(w.db, turn)) && RegisterInterrupt(w.db, turn, reason, e, s.rows).Commit? {
          InterruptRows(w.db, turn, reason, e, s.rows);
        }
    }
  }

  lemma RequestTask(w: World, s: Step, id: TaskId)
    ensures TaskKept(w.db, DoRequest(w, s).db, id)
  {
    if s.Execute? && s.req in w.requests && w.requests[s.req].command.Interrupt? {
      var Interrupt(e, turn, reason) := w.requests[s.req].command;
      if Enumerates(s.rows, TasksToCancel(w.db, turn)) && RegisterInterrupt(w.db, turn, reason, e, s.rows).Commit? {
        RegisterShape(w.db, turn, reason, e, s.rows);
        InterruptsIsRequestable(w.db, turn, s.rows);
        RequestAllChanges(w.db, turn, s.rows);
      }
    }
  }

  predicate IsAccepted(l: IV.Limits, input: TaskInput) {
    IV.Validate(l, InputJson(input), 0).Accepted?
  }

  /** A task appears only when it is planned, and its input has been accepted. */
  predicate TaskPlanned(w: World, w': World, id: TaskId) {
    id !in w.db.tasks && id in w'.db.tasks && IsAccepted(w.limits, w'.db.tasks[id].input)
  }

  lemma PlanQuiet(w: World, packet: Packet, newTask: TaskId, id: TaskId)
    ensures var w' := DoMessage(w, PlanMessage(packet, newTask));
            RowsKept(w.db, w'.db) && (TaskKept(w.db, w'.db, id) || TaskPlanned(w, w', id))
  {
    if PacketIsCurrent(w.db, packet, Decide(packet)) {
      CreateTasksIsCreateOne(w.limits, w.db, packet, newTask);
    }
  }

  lemma ComposeQuiet(
    w: World, turn: TurnId, ctx: nat, newTurn: TurnId, taskRows: seq<TaskId>, callRows: seq<CallId>, id: TaskId)
    requires WorldInv(w)
    ensures var w' := DoMessage(w, ComposeMessage(turn, ctx, newTurn, taskRows, callRows));
            RowsKept(w.db, w'.db) && TaskKept(w.db, w'.db, id)
  {
    assert Stands(Database, w);
    if ComposeRows(PlanCompose(w.db, turn, ctx), taskRows, callRows) {
      NeverConflicts(w.db, turn, ctx, newTurn, taskRows, callRows);
    }
  }

  lemma ClaimRows(db: SessionDb, task: TaskId, newCall: CallId)
    requires ClaimTask(db, task, newCall).Commit?
    ensures ClaimTask(db, task, newCall).db.turns == db.turns
    ensures ClaimTask(db, task, newCall).db.preferences == db.preferences
  {}

  lemma ClaimTaskKept(db: SessionDb, task: TaskId, newCall: CallId, id: TaskId)
    requires ClaimTask(db, task, newCall).Commit?
    ensures TaskKept(db, ClaimTask(db, task, newCall).db, id)
  {}

  lemma ClaimQuiet(w: World, task: TaskId, run: RunId, newCall: CallId, id: TaskId)
    ensures var w' := DoMessage(w, TaskMessage(task, run, newCall)); RowsKept(w.db, w'.db) && TaskKept(w.db, w'.db, id)
  {
    SameRowsAreKept(w.db, w.db);
    if ClaimTask(w.db, task, newCall).Commit? {
      ClaimRows(w.db, task, newCall);
      ClaimTaskKept(w.db, task, newCall, id);
      SameRowsAreKept(w.db, ClaimTask(w.db, task, newCall).db);
    }
  }

  lemma OtherMessagesQuiet(w: World, s: Step)
    requires !s.PlanMessage? && !s.ComposeMessage? && !s.TaskMessage?
    ensures DoMessage(w, s).db == w.db
  {}

  lemma MessageQuiet(w: World, s: Step, id: TaskId)
    requires WorldInv(w)
    ensures RowsKept(w.db, DoMessage(w, s).db)
    ensures TaskKept(w.db, DoMessage(w, s).db, id) || TaskPlanned(w, DoMessage(w, s), id)
  {
    match s
    case PlanMessage(packet, newTask) => PlanQuiet(w, packet, newTask, id);
    case ComposeMessage(turn, ctx, newTurn, taskRows, callRows) =>
      ComposeQuiet(w, turn, ctx, newTurn, taskRows, callRows, id);
    case TaskMessage(task, run, newCall) => ClaimQuiet(w, task, run, newCall, id);
    case _ =>
      OtherMessagesQuiet(w, s);
      SameRowsAreKept(w.db, w.db);
  }

  lemma CommitRows(db: SessionDb, task: TaskId, call: Option<CallId>, output: ToolOutput, cancelSeen: bool)
    ensures var db' := CommitResult(db, task, call, output, cancelSeen);
            db'.turns == db.turns && db'.preferences == db.preferences
  {}

  lemma CommitQuiet(db: SessionDb, task: TaskId, call: Option<CallId>, output: ToolOutput, cancelSeen: bool, id: TaskId)
    ensures var db' := CommitResult(db, task, call, output, cancelSeen);
            && (id in db'.tasks ==> id in db.tasks && db'.tasks[id].input == db.tasks[id].input)
            && (id != task ==> TaskKept(db, db', id))
  {}

  lemma FailQuiet(db: SessionDb, task: TaskId, call: Option<CallId>, id: TaskId)
    ensures var db' := FailTask(db, task, call);
            db'.turns == db.turns && db'.preferences == db.preferences && TaskKept(db, db', id)
  {}

  lemma RunnerRows(w: World, s: Step)
    ensures RowsKept(w.db, DoRunner(w, s).db)
  {
    SameRowsAreKept(w.db, w.db);
    match s
    case CommitRun(run, seen, _) =>
      if CommitReady(w, run, seen) {
        var r := w.runners[run];
        CommitRows(w.db, r.task, r.call, r.output.value, r.cancelSeen || seen);
        SameRowsAreKept(w.db, RunResult(w, run, seen));
      }
    case Fail(run) =>
      if run in w.runners {
        FailQuiet(w.db, w.runners[run].task, w.runners[run].call, w.runners[run].task);
        SameRowsAreKept(w.db, FailTask(w.db, w.runners[run].task, w.runners[run].call));
      }
    case _ => SameRowsAreKept(w.db, DoRunner(w, s).db);
  }

  /** Only the commit of its own runner makes a task succeed. */
  lemma RunnerTask(w: World, s: Step, id: TaskId)
    ensures var db' := DoRunner(w, s).db;
            && (id in db'.tasks ==> id in w.db.tasks && db'.tasks[id].input == w.db.tasks[id].input)
            && (CommitsTask(w, s, id) || TaskKept(w.db, db', id))
  {
    match s
    case CommitRun(run, seen, _) =>
      if CommitReady(w, run, seen) {
        var r := w.runners[run];
        CommitQuiet(w.db, r.task, r.call, r.output.value, r.cancelSeen || seen, id);
      }
    case Fail(run) =>
      if run in w.runners { FailQuiet(w.db, w.runners[run].task, w.runners[run].call, id); }
    case _ =>
  }

  lemma StepRows(w: World, s: Step)
    requires WorldInv(w)
    ensures RowsKept(w.db, Do(w, s).db) && Do(w, s).limits == w.limits
  {
    RequestRows(w, s);
    MessageQuiet(w, s, 0);
    RunnerRows(w, s);
  }

  lemma StepTask(w: World, s: Step, id: TaskId)
    requires WorldInv(w)
    ensures id in Do(w, s).db.tasks ==>
              if id in w.db.tasks then Do(w, s).db.tasks[id].input == w.db.tasks[id].input
              else IsAccepted(w.limits, Do(w, s).db.tasks[id].input)
    ensures id in w.db.tasks && id in Do(w, s).db.tasks && Do(w, s).db.tasks[id].status == Succeeded ==>
              w.db.tasks[id].status == Succeeded || CommitsTask(w, s, id)
  {
    RequestTask(w, s, id);
    MessageQuiet(w, s, id);
    RunnerTask(w, s, id);
  }

  // ---------- What no run does ----------

  lemma {:induction false} NewTasksAreAccepted(w: World, steps: seq<Step>, id: TaskId)
    requires WorldInv(w)
    ensures RowsKept(w.db, After(w, steps).db) && After(w, steps).limits == w.limits
    ensures id in After(w, steps).db.tasks ==> id in w.db.tasks || IsAccepted(w.limits, After(w, steps).db.tasks[id].input)
  {
    if steps != [] {
      var before, s := After(w, steps[..|steps| - 1]), steps[|steps| - 1];
      NewTasksAreAccepted(w, steps[..|steps| - 1], id);
      AfterKeeps(w, steps[..|steps| - 1]);
      StepRows(before, s);
      StepTask(before, s, id);
    }
  }

  /** A claimed task whose runner is gone never succeeds. */
  lemma {:induction false} NeverSucceeds(w: World, steps: seq<Step>, id: TaskId)
    requires Reachable(w) && id in w.db.tasks && !HasCommitter(w, id)
    requires w.db.tasks[id].status != Queued && w.db.tasks[id].status != Succeeded
    ensures id in After(w, steps).db.tasks && After(w, steps).db.tasks[id].status != Succeeded
    ensures After(w, steps).db.tasks[id].status != Queued && !HasCommitter(After(w, steps), id)
  {
    TasksOnlyRise(w, steps, id);
    if steps != [] {
      var before, s := After(w, steps[..|steps| - 1]), steps[|steps| - 1];
      NeverSucceeds(w, steps[..|steps| - 1], id);
      ReachableInv(w);
      AfterKeeps(w, steps[..|steps| - 1]);
      StepTask(before, s, id);
      OnlyCommittersCommit(before, s, id);
      NoNewCommitter(before, s, id);
    }
  }

  // ---------- Exactly when ----------

  /** The preference and the text that a task of the turn was planned on are still those of the session. */
  lemma AcceptedTextsFit(w: World, w': World, turn: TurnId, id: TaskId)
    requires Reachable(w) && Reachable(w') && IsCurrentTurn(w.db, turn) && RowsKept(w.db, w'.db) && w'.limits == w.limits
    requires w.db.outbox <= w'.db.outbox
    requires id in TasksOf(w'.db, turn) && IsAccepted(w.limits, w'.db.tasks[id].input)
    ensures forall p :: IsActive(w.db, p) ==> TextsFit(w.limits, w.db.preferences[p].payload, w.db.turns[turn].text)
  {
    ReachableInv(w);
    var task := w'.db.tasks[id];
    TaskAsksForItsPreference(w', id);
    TaskIsOnTurnsPreference(w, w', turn, id);
    InputFits(w.limits, task.input.destination, task.input.query);
    forall p | IsActive(w.db, p) ensures TextsFit(w.limits, w.db.preferences[p].payload, w.db.turns[turn].text) {
      ActiveIsLatest(w.db);
      assert Holds(Preferences, w.db);
      assert p == task.pref.value;
      SameDestination(w.db.preferences[p].payload, task.input.destination);
    }
  }

  lemma SameDestination(preference: Payload, d: string)
    requires IsDestination(d, preference, "未指定目的地")
    ensures forall e :: IsDestination(e, preference, "未指定目的地") ==> e == d
  {}

  /** A task of a turn is planned on the preference version that the turn was written on. */
  lemma TaskIsOnTurnsPreference(w: World, w': World, turn: TurnId, id: TaskId)
    requires Reachable(w) && Reachable(w') && IsCurrentTurn(w.db, turn) && w.db.outbox <= w'.db.outbox
    requires id in TasksOf(w'.db, turn)
    ensures w'.db.tasks[id].pref == Some(ViewOf(w.db).pref)
  {
    ReachableInv(w);
    ReachableInv(w');
    var k := CurrentTurnHasEvent(w.db, turn);
    assert w'.db.outbox[k] == w.db.outbox[k];
    assert Holds(Log, w'.db);
    FinalizedTurnStays(Bodies(w'.db.outbox), k);
    TaskMatchesView(w'.db, id);
  }

  /** Before its reply, a current turn's task aims at the version that the turn was written on. */
  lemma CurrentTaskAtBase(db: SessionDb, turn: TurnId, id: TaskId)
    requires Inv(db) && IsCurrentTurn(db, turn) && id in TasksOf(db, turn) && !IsAnswered(db, turn, db.ctx)
    ensures turn in ViewOf(db).turns && db.tasks[id].itin == Some(ViewOf(db).turns[turn].base)
  {
    CurrentTurnsTask(db, turn, id);
    TaskMatchesView(db, id);
    OneSource(db, turn, id, id);
  }

  lemma {:induction false} BaseStays(log: seq<EventBody>, k: nat, t: TurnId)
    requires Legal(log) && k <= |log| && t in Fold(log[..k]).turns
    ensures t in Fold(log).turns && Fold(log).turns[t].base == Fold(log[..k]).turns[t].base
  {
    if k == |log| {
      assert log[..k] == log;
    } else {
      var n := |log| - 1;
      assert log[..n][..k] == log[..k];
      LegalPrefix(log, n);
      BaseStays(log[..n], k, t);
      Started(log[..n]);
      TurnsPersistKeeps(Fold(log[..n]), log[n]);
    }
  }

  /** The task that the answer comes from is the one that the turn had before, if it had one. */
  lemma SourceIsTheTask(w: World, steps: seq<Step>, turn: TurnId, first: TaskId, source: TaskId)
    requires Reachable(w) && IsCurrentTurn(w.db, turn) && first in TasksOf(w.db, turn) && !IsAnswered(w.db, turn, w.db.ctx)
    requires source in TasksOf(After(w, steps).db, turn) && turn in ViewOf(After(w, steps).db).turns
    requires After(w, steps).db.tasks[source].itin == Some(ViewOf(After(w, steps).db).turns[turn].base)
    ensures source == first
  {
    ReachableInv(w);
    AfterKeeps(w, steps);
    Open(After(w, steps));
    CurrentTaskAtBase(w.db, turn, first);
    LogGrows(w, steps);
    var db' := After(w, steps).db;
    TaskStaysItself(w, steps, first);
    BodiesPrefix(w.db.outbox, db'.outbox);
    LogAspects(db');
    BaseStays(Bodies(db'.outbox), |w.db.outbox|, turn);
    TargetsNearBase(db', turn);
  }

  /** A task keeps its turn and target for ever. */
  lemma TaskStaysItself(w: World, steps: seq<Step>, id: TaskId)
    requires Reachable(w) && id in w.db.tasks
    ensures var db' := After(w, steps).db;
            id in db'.tasks && db'.tasks[id].turn == w.db.tasks[id].turn && db'.tasks[id].itin == w.db.tasks[id].itin
  {
    ReachableInv(w);
    AfterKeeps(w, steps);
    Open(After(w, steps));
    LogGrows(w, steps);
    var db, db' := w.db, After(w, steps).db;
    TaskMatchesView(db, id);
    LogAspects(db');
    BodiesPrefix(db.outbox, db'.outbox);
    StatusOnlyRises(Bodies(db'.outbox), |db.outbox|, id);
    assert Holds(Tasks, db');
    assert TaskMatches(db'.tasks[id], ViewOf(db').tasks[id]);
  }

  /** A task of a current turn that has succeeded in the end may succeed now. */
  lemma SuccessWasPossible(w: World, steps: seq<Step>, turn: TurnId, id: TaskId)
    requires Reachable(w) && IsCurrentTurn(w.db, turn) && id in TasksOf(w.db, turn)
    requires id in After(w, steps).db.tasks && After(w, steps).db.tasks[id].status == Succeeded
    ensures MaySucceed(w, id)
  {
    ReachableInv(w);
    CurrentTurnsTask(w.db, turn, id);
    TaskMatchesView(w.db, id);
    if !MaySucceed(w, id) {
      TasksOnlyRise(w, steps, id);
      if !HasCommitter(w, id) {
        NeverSucceeds(w, steps, id);
      }
    }
  }

  lemma AnswersWerePossible(w: World, steps: seq<Step>, turn: TurnId)
    requires Reachable(w) && IsCurrentTurn(w.db, turn) && Answer(w, steps, turn, w.db.ctx)
    ensures CanBeAnswered(w, turn)
  {
    ReachableInv(w);
    ReachableAfter(w, steps);
    ReachableInv(After(w, steps));
    var id := AnswerHasSource(After(w, steps).db, turn, w.db.ctx);
    if !IsAnswered(w.db, turn, w.db.ctx) {
      if TasksOf(w.db, turn) == {} {
        NewTasksAreAccepted(w, steps, id);
        OldTaskWasOfTurn(w, steps, turn, id);
        LogGrows(w, steps);
        AcceptedTextsFit(w, After(w, steps), turn, id);
      } else {
        var first :| first in TasksOf(w.db, turn);
        SourceIsTheTask(w, steps, turn, first, id);
        SuccessWasPossible(w, steps, turn, id);
      }
    }
  }

  lemma OldTaskWasOfTurn(w: World, steps: seq<Step>, turn: TurnId, id: TaskId)
    requires Reachable(w) && id in TasksOf(After(w, steps).db, turn)
    ensures id in w.db.tasks ==> id in TasksOf(w.db, turn)
  {
    if id in w.db.tasks {
      TaskStaysItself(w, steps, id);
    }
  }

  /** A turn of the current context is answered by some run if and only if it has a reply, or its task has succeeded,
    is queued, or is running with a live runner that may still commit, or it has no task and its texts are within the
    limits.  So a failed task, or one whose runner is gone, leaves its turn without an answer for ever. */
  lemma AnsweredIff(w: World, turn: TurnId)
    requires Reachable(w) && IsCurrentTurn(w.db, turn)
    ensures (exists steps :: Answer(w, steps, turn, w.db.ctx)) <==> CanBeAnswered(w, turn)
  {
    if CanBeAnswered(w, turn) {
      var steps := SomeRunAnswers(w, turn);
    } else {
      forall steps ensures !Answer(w, steps, turn, w.db.ctx) {
        if Answer(w, steps, turn, w.db.ctx) {
          AnswersWerePossible(w, steps, turn);
        }
      }
    }
  }
}
