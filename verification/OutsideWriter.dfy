/** Databases that no run of this system reaches: something else has confirmed an itinerary in the meantime.

  The lemmas of the first part assume nothing about the database, so they hold whoever else writes to it.
 */
module OutsideWriter {
  import opened Rows
  import opened Transactions
  import opened History
  import opened Refinement
  import opened TaskSteps
  import opened ReplySteps
  import opened Runs
  import opened RunInvariant
  import opened WorkOutcomes
  import IV = InputValidation

  // ---------- Any database ----------

  /** The confirmed version gives way to the next one, and every other version stays as it is. */
  ghost predicate Replaces(before: map<nat, Itinerary>, after: map<nat, Itinerary>, current: nat) {
    && current + 1 !in before && current + 1 in after && after[current + 1].status == Confirmed
    && after.Keys == before.Keys + {current + 1}
    && forall x :: x in before ==>
         after[x] == if x == current && before[x].status == Confirmed then before[x].(status := Replaced) else before[x]
  }

  /** Composing leaves the itineraries alone, or replaces the version all its source tasks aimed at: a version
    that was confirmed after the tasks were planned is never overwritten. */
  lemma NeverOverwrites(
    db: SessionDb, turn: TurnId, ctx: nat, reply: TurnId, taskRows: seq<TaskId>, callRows: seq<CallId>)
    requires ComposeRows(PlanCompose(db, turn, ctx), taskRows, callRows)
    requires ComposeReply(db, turn, ctx, reply, taskRows, callRows).Commit?
    ensures var db' := ComposeReply(db, turn, ctx, reply, taskRows, callRows).db;
            || db'.itineraries == db.itineraries
            || (&& Replaces(db.itineraries, db'.itineraries, CurrentItinerary(db))
                && db'.itineraries[CurrentItinerary(db) + 1].sources == taskRows != []
                && forall t :: t in taskRows ==> t in db.tasks && db.tasks[t].itin == Some(CurrentItinerary(db)))
  {
    var plan := PlanCompose(db, turn, ctx);
    if plan.Build? {
      SourcesAimAtTarget(db, turn, ctx);
      var t :| t in plan.tasks;
      assert t in taskRows;
      assert forall t :: t in taskRows <==> t in plan.tasks;
      if CurrentItinerary(db) == plan.target {
        SupersedeReplaces(db, ComposeReply(db, turn, ctx, reply, taskRows, callRows).db.itineraries);
      } else {
        ConflictKeepsItineraries(db, taskRows);
      }
    }
  }

  lemma SupersedeReplaces(db: SessionDb, after: map<nat, Itinerary>)
    requires CurrentItinerary(db) + 1 !in db.itineraries
    requires CurrentItinerary(db) + 1 in after && after[CurrentItinerary(db) + 1].status == Confirmed
    requires after == Supersede(db.itineraries, ConfirmedItinerary(db))[CurrentItinerary(db) + 1 := after[CurrentItinerary(db) + 1]]
    ensures Replaces(db.itineraries, after, CurrentItinerary(db))
  {
    // version 0 reads like no confirmed version, but one that is not confirmed stays as it is
    assert ConfirmedItinerary(db).None? ==> !IsConfirmed(db, 0);
  }

  lemma SourcesAimAtTarget(db: SessionDb, turn: TurnId, ctx: nat)
    requires PlanCompose(db, turn, ctx).Build?
    ensures var plan := PlanCompose(db, turn, ctx);
            plan.tasks != {} && forall t :: t in plan.tasks ==> t in db.tasks && db.tasks[t].itin == Some(plan.target)
  {}

  /** On any database a reply is built exactly when the context is the session's, there is no reply yet, and the
    succeeded tasks of the turn have one target and as many succeeded calls, all on the active preference. */
  lemma BuildsFromSucceeded(db: SessionDb, turn: TurnId, ctx: nat, pref: nat, target: nat, tasks: set<TaskId>, calls: set<CallId>)
    requires IsActive(db, pref) && forall p :: IsActive(db, p) ==> p == pref
    requires forall t :: t in tasks <==>
               && t in db.tasks && db.tasks[t].turn == Some(turn) && db.tasks[t].ctx == Some(ctx)
               && db.tasks[t].pref == Some(pref) && db.tasks[t].status == Succeeded
    requires forall c :: c in calls <==>
               && c in db.calls && db.calls[c].task in tasks && db.calls[c].ctx == ctx
               && db.calls[c].pref == pref && db.calls[c].status == CallSucceeded
    ensures PlanCompose(db, turn, ctx) == Build(pref, tasks, calls, target)
            <==> && ctx == db.ctx && !KeyTaken(db.outbox, KeyReply(turn, ctx)) && tasks != {} && |calls| == |tasks|
                 && forall t :: t in tasks ==> db.tasks[t].itin == Some(target)
  {
    assert SucceededTasks(db, turn, ctx, pref) == tasks;
    assert SucceededCalls(db, tasks, ctx, pref) == calls;
    if tasks != {} {
      var t :| t in tasks;
      assert CommonTarget(db, tasks).Some? ==> db.tasks[t].itin == CommonTarget(db, tasks);
      assert (forall u :: u in tasks ==> db.tasks[u].itin == Some(target)) ==> db.tasks[t].itin == Some(target);
    }
  }

  predicate TellsDiscard(row: EventRow, seqNo: nat, id: TaskId) {
    && row.seqNo == seqNo && row.key == KeyTask(id, Discarded)
    && row.body.TaskMoved? && row.body.task == id && row.body.to == Discarded
  }

  /** What the conflict loop leaves behind. */
  ghost predicate OnlyDiscarded(db: SessionDb, db': SessionDb, rows: seq<TaskId>) {
    && db' == db.(tasks := db'.tasks, lastSeq := db.lastSeq + |rows|, outbox := db'.outbox)
    && db'.tasks.Keys == db.tasks.Keys
    && (forall t :: t in db.tasks ==>
          db'.tasks[t] == if t in rows then db.tasks[t].(status := Discarded) else db.tasks[t])
    && |db'.outbox| == |db.outbox| + |rows| && db.outbox <= db'.outbox
    && (forall k :: |db.outbox| <= k < |db'.outbox| ==>
          TellsDiscard(db'.outbox[k], db.lastSeq + 1 + (k - |db.outbox|), rows[k - |db.outbox|]))
  }

  lemma DiscardOneMore(db: SessionDb, d: SessionDb, rows: seq<TaskId>, id: TaskId)
    requires OnlyDiscarded(db, d, rows) && id in db.tasks
    ensures OnlyDiscarded(db, DiscardOne(d, id), rows + [id])
  {
    var d', longer := DiscardOne(d, id), rows + [id];
    assert forall t :: t in longer <==> t in rows || t == id;
    forall k | |db.outbox| <= k < |d'.outbox|
      ensures TellsDiscard(d'.outbox[k], db.lastSeq + 1 + (k - |db.outbox|), longer[k - |db.outbox|])
    {
      if k < |d.outbox| {
        assert d'.outbox[k] == d.outbox[k];
      }
    }
  }

  lemma {:induction false} DiscardAllDiscards(db: SessionDb, rows: seq<TaskId>)
    requires forall t :: t in rows ==> t in db.tasks
    ensures OnlyDiscarded(db, DiscardAll(db, rows), rows)
  {
    if rows != [] {
      var n := |rows| - 1;
      assert rows == rows[..n] + [rows[n]];
      DiscardAllDiscards(db, rows[..n]);
      DiscardOneMore(db, DiscardAll(db, rows[..n]), rows[..n], rows[n]);
    }
  }

  lemma {:induction false} ConflictKeepsItineraries(db: SessionDb, rows: seq<TaskId>)
    ensures DiscardAll(db, rows).itineraries == db.itineraries
  {
    if rows != [] {
      ConflictKeepsItineraries(db, rows[..|rows| - 1]);
    }
  }

  /** A conflict is reported exactly when the confirmed version is not the one the tasks aimed at; then the tasks
    are discarded, with one event each, and nothing else changes. */
  lemma ConflictDiscards(
    db: SessionDb, turn: TurnId, ctx: nat, reply: TurnId, taskRows: seq<TaskId>, callRows: seq<CallId>)
    requires ComposeRows(PlanCompose(db, turn, ctx), taskRows, callRows)
    requires ComposeReply(db, turn, ctx, reply, taskRows, callRows).Commit?
    ensures var plan, r := PlanCompose(db, turn, ctx), ComposeReply(db, turn, ctx, reply, taskRows, callRows);
            && (r.value == ItineraryConflict <==> plan.Build? && CurrentItinerary(db) != plan.target)
            && (r.value == ItineraryConflict ==> OnlyDiscarded(db, r.db, taskRows))
  {
    var plan := PlanCompose(db, turn, ctx);
    if plan.Build? && CurrentItinerary(db) != plan.target {
      SourcesAimAtTarget(db, turn, ctx);
      assert forall t :: t in taskRows ==> t in plan.tasks;
      DiscardAllDiscards(db, taskRows);
    }
  }

  /** The task still stands on what it was planned on, as far as it says what that was. */
  predicate StandsOn(db: SessionDb, task: Task) {
    task.ctx == None || (task.ctx == Some(db.ctx) && (task.pref == None || IsActive(db, task.pref.value)))
  }

  /** On any database a result is discarded exactly when a mark was seen, the task has been cancelled or asked to, or
    the session has left the context or the preference that the task names. */
  lemma VerdictOnAnyDatabase(
    db: SessionDb, id: TaskId, call: Option<CallId>, output: ToolOutput, cancelSeen: bool)
    requires id in db.tasks
    ensures var db', task := CommitResult(db, id, call, output, cancelSeen), db.tasks[id];
            var discarded := cancelSeen || task.status.CancelRequested? || task.status.Cancelled? || !StandsOn(db, task);
            && db'.tasks == db.tasks[id :=
                 task.(status := if discarded then Discarded else Succeeded, result := Some(output))]
            && db' == db.(tasks := db'.tasks, calls := db'.calls, lastSeq := db'.lastSeq, outbox := db'.outbox)
  {
    var done, status := CommitResult(db, id, call, output, cancelSeen).tasks[id],
      if MustDiscard(db, db.tasks[id], cancelSeen) then Discarded else Succeeded;
    assert done == db.tasks[id].(status := status, result := Some(output));
  }

  // ---------- After one foreign confirmation ----------

  /** Something else confirms the next version. */
  ghost function ConfirmElsewhere(db: SessionDb, row: Itinerary): SessionDb {
    db.(itineraries := Supersede(db.itineraries, ConfirmedItinerary(db))[CurrentItinerary(db) + 1 := row.(status := Confirmed)])
  }

  lemma ElsewhereIsCurrent(db: SessionDb, row: Itinerary)
    requires Inv(db)
    ensures CurrentItinerary(ConfirmElsewhere(db, row)) == CurrentItinerary(db) + 1
    ensures forall x :: IsConfirmed(ConfirmElsewhere(db, row), x) <==> x == CurrentItinerary(db) + 1
  {
    ConfirmedIsLatest(db);
    assert Holds(Itineraries, db);
    var db' := ConfirmElsewhere(db, row);
    assert IsConfirmed(db', CurrentItinerary(db) + 1);
    assert forall x :: x in db.itineraries && x != CurrentItinerary(db) ==> db.itineraries[x].status != Confirmed;
  }

  /** Nothing but the confirmed itinerary tells the two databases apart, so the plan is the same. */
  lemma ElsewherePlan(db: SessionDb, row: Itinerary, turn: TurnId, id: TaskId)
    returns (c: CallId)
    requires Inv(db) && id in db.tasks && db.tasks[id].status == Succeeded
    requires db.tasks[id].turn == Some(turn) && db.tasks[id].ctx == Some(db.ctx)
    requires !KeyTaken(db.outbox, KeyReply(turn, db.ctx))
    ensures PlanCompose(ConfirmElsewhere(db, row), turn, db.ctx) == Build(ViewOf(db).pref, {id}, {c}, CurrentItinerary(db))
    ensures ActivePreference(ConfirmElsewhere(db, row)) == Some(ViewOf(db).pref)
  {
    var db1 := ConfirmElsewhere(db, row);
    c := PlanIsBuild(db, turn, id);
    ActiveIsLatest(db);
    ElsewhereActive(db, db1);
    OneSource(db, turn, id, id);
    assert SucceededTasks(db1, turn, db.ctx, ViewOf(db).pref) == SucceededTasks(db, turn, db.ctx, ViewOf(db).pref);
    assert SucceededCalls(db1, {id}, db.ctx, ViewOf(db).pref) == SucceededCalls(db, {id}, db.ctx, ViewOf(db).pref);
  }

  lemma ElsewhereActive(db: SessionDb, db1: SessionDb)
    requires Inv(db) && db1.preferences == db.preferences
    ensures ActivePreference(db1) == Some(ViewOf(db).pref)
  {
    assert Holds(Preferences, db) && Holds(Counters, db);
    assert IsActive(db1, ViewOf(db).pref);
  }

  /** A confirmation from elsewhere, between a task's success and its reply, is kept: the reply is not composed,
    the task is discarded, and only it. */
  lemma ElsewhereWins(
    db: SessionDb, row: Itinerary, turn: TurnId, id: TaskId, reply: TurnId, taskRows: seq<TaskId>, callRows: seq<CallId>)
    requires Inv(db) && id in db.tasks && db.tasks[id].status == Succeeded
    requires db.tasks[id].turn == Some(turn) && db.tasks[id].ctx == Some(db.ctx)
    requires !KeyTaken(db.outbox, KeyReply(turn, db.ctx))
    requires ComposeRows(PlanCompose(ConfirmElsewhere(db, row), turn, db.ctx), taskRows, callRows)
    ensures var r := ComposeReply(ConfirmElsewhere(db, row), turn, db.ctx, reply, taskRows, callRows);
            r.Commit? && r.value == ItineraryConflict && OnlyDiscarded(ConfirmElsewhere(db, row), r.db, [id])
  {
    var db1 := ConfirmElsewhere(db, row);
    var c := ElsewherePlan(db, row, turn, id);
    ElsewhereIsCurrent(db, row);
    SingletonRows(taskRows, id);
    MoveAppends(db, id, Discarded);
    ConflictDiscards(db1, turn, db.ctx, reply, taskRows, callRows);
  }

  /** Planning the packet adds its task; it is refused exactly for a text out of bounds or for a drawn identifier that
    is taken. */
  ghost predicate MakesNewTask(limits: IV.Limits, db: SessionDb, packet: Packet, id: TaskId) {
    var r := CreateTasks(limits, db, packet, Decide(packet), [id]);
    && (r.Commit? <==>
          && TextsFit(limits, packet.preference, packet.text)
          && id !in db.tasks && !KeyTaken(db.outbox, KeyTask(id, Queued)))
    && (r.Commit? ==> r.value == [id] && AddsTask(db, r.db, packet, id))
  }

  lemma UnusedKeyMakesNewTask(limits: IV.Limits, db: SessionDb, packet: Packet, id: TaskId)
    requires PacketIsCurrent(db, packet, Decide(packet)) && !HasTaskKey(db, PlanKey(packet, Decide(packet).plans[0]))
    ensures MakesNewTask(limits, db, packet, id)
  {
    CreateTasksIsCreateOne(limits, db, packet, id);
    PlannedInputFits(limits, packet);
  }

  /** The packet rebuilt after that aims at the version confirmed elsewhere, and planning it makes a new task. */
  lemma ReplanAimsElsewhere(
    limits: IV.Limits, db: SessionDb, row: Itinerary, turn: TurnId, id: TaskId, db2: SessionDb, newTask: TaskId)
    requires Inv(db) && id in db.tasks && db.tasks[id].status == Succeeded
    requires db.tasks[id].turn == Some(turn) && db.tasks[id].ctx == Some(db.ctx)
    requires !KeyTaken(db.outbox, KeyReply(turn, db.ctx))
    requires OnlyDiscarded(ConfirmElsewhere(db, row), db2, [id])
    ensures BuildPacket(db2, turn, db.ctx, None).Some?
    ensures var packet := BuildPacket(db2, turn, db.ctx, None).value;
            && packet.itin == CurrentItinerary(db) + 1
            && PacketIsCurrent(db2, packet, Decide(packet))
            && !HasTaskKey(db2, PlanKey(packet, Decide(packet).plans[0]))
            && MakesNewTask(limits, db2, packet, newTask)
  {
    var db1 := ConfirmElsewhere(db, row);
    ElsewhereIsCurrent(db, row);
    ElsewhereActive(db, db2);
    SameConfirmed(db1, db2);
    TaskMatchesView(db, id);
    assert Holds(Preferences, db);
    assert Holds(Turns, db);
    var packet := BuildPacket(db2, turn, db.ctx, None).value;
    forall t | t in db2.tasks ensures db2.tasks[t].key != Some(PlanKey(packet, Decide(packet).plans[0])) {
      TargetsBeforeReply(db, turn, id, t);
    }
    UnusedKeyMakesNewTask(limits, db2, packet, newTask);
  }

  /** After a conflict the turn's packet is built anew, from the active preference and the version confirmed by then. */
  lemma ReplanIsCarriedOut(w: World, turn: TurnId, ctx: nat, pref: nat)
    requires (turn, ctx) in w.conflicts && turn in w.db.turns
    requires IsActive(w.db, pref) && forall p :: IsActive(w.db, p) ==> p == pref
    ensures Do(w, Replan(turn, ctx)) == w.(packets := w.packets + {
              Packet(turn, ctx, pref, CurrentItinerary(w.db), w.db.preferences[pref].payload, w.db.turns[turn].text)})
  {}

  lemma SameConfirmed(db1: SessionDb, db2: SessionDb)
    requires db2.itineraries == db1.itineraries
    requires forall x, y :: IsConfirmed(db1, x) && IsConfirmed(db1, y) ==> x == y
    ensures CurrentItinerary(db2) == CurrentItinerary(db1)
  {
    assert forall x :: IsConfirmed(db2, x) <==> IsConfirmed(db1, x);
  }

  /** Before the reply no task of the context aims past the confirmed version. */
  lemma TargetsBeforeReply(db: SessionDb, turn: TurnId, id: TaskId, t: TaskId)
    requires Inv(db) && id in db.tasks && t in db.tasks
    requires db.tasks[id].turn == Some(turn) && db.tasks[id].ctx == Some(db.ctx)
    requires !KeyTaken(db.outbox, KeyReply(turn, db.ctx))
    ensures db.tasks[t].key.Some?
    ensures db.tasks[t].key.value.ctx == db.ctx ==> db.tasks[t].key.value.itin == CurrentItinerary(db)
  {
    TaskMatchesView(db, id);
    TaskMatchesView(db, t);
    InvIsSound(db);
    if db.tasks[t].ctx == Some(db.ctx) {
      var v := ViewOf(db);
      OneTurnPerContext(v, v.tasks[t].turn, v.tasks[id].turn);
      OneSource(db, turn, id, t);
    }
  }
}
