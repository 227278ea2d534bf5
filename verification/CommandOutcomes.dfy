/** What a client is told and what its command changes, step by step and in terms of the tables alone. */
module CommandOutcomes {
  import opened Rows
  import opened Transactions
  import opened Refinement
  import opened InterruptSteps
  import opened Runs
  import opened RunInvariant
  import opened Theorems
  import opened ReplyTheorems
  import opened CommandTheorems

  /** The row of the log is that of a command with the same client event id. */
  predicate IsRowOf(row: EventRow, command: Command) {
    match command
    case Finalize(e, _) => row.key == KeyTurn(e)
    case Patch(e, _, _, _) => row.key == KeyPreference(e)
    case Interrupt(e, _, _) => row.key == KeyInterrupt(e)
  }

  /** What the row says of the command that took effect, field by field. */
  predicate TellsOf(row: EventRow, command: Command, response: Response) {
    match command
    case Finalize(_, _) =>
      && row.body.TurnFinalized? && response.FinalizedAs?
      && response.finalized.turn == row.body.turn && response.finalized.ctx == row.body.ctx
      && response.finalized.pref == row.body.pref && response.finalized.seqNo == row.seqNo
    case Patch(_, _, _, _) =>
      && row.body.PreferenceUpdated? && response.UpdatedAs?
      && response.updated.ctx == row.body.ctx && response.updated.pref == row.body.pref
      && response.updated.seqNo == row.seqNo
    case Interrupt(_, _, _) =>
      && row.body.InterruptAccepted? && response.InterruptedAs?
      && response.interrupted.turn == row.body.turn && response.interrupted.ctx == row.body.ctx
      && response.interrupted.cancelled == row.body.cancelled && response.interrupted.turnStatus == row.body.turnStatus
      && response.interrupted.seqNo == row.seqNo
  }

  predicate IsKnown(outbox: seq<EventRow>, command: Command) {
    exists i :: 0 <= i < |outbox| && IsRowOf(outbox[i], command)
  }

  /** The response is what the log's only row of the command tells. */
  predicate IsToldBy(outbox: seq<EventRow>, command: Command, response: Response) {
    && IsKnown(outbox, command)
    && forall i :: 0 <= i < |outbox| && IsRowOf(outbox[i], command) ==> TellsOf(outbox[i], command, response)
  }

  /** The step changes nothing but where the request stands. */
  predicate Becomes(w: World, w': World, req: RequestId, phase: Phase)
    requires req in w.requests
  {
    w' == w.(requests := w.requests[req := Request(w.requests[req].command, phase)])
  }

  lemma KnownIsTaken(outbox: seq<EventRow>, command: Command)
    ensures IsKnown(outbox, command) <==> KeyTaken(outbox, CommandKey(command))
  {
    if KeyTaken(outbox, CommandKey(command)) {
      var i :| 0 <= i < |outbox| && outbox[i].key == CommandKey(command);
      assert IsRowOf(outbox[i], command);
    }
  }

  lemma KnownIsTold(outbox: seq<EventRow>, command: Command)
    requires KeysUnique(outbox) && KeyTaken(outbox, CommandKey(command))
    ensures IsToldBy(outbox, command, ResponseOf(RowWithKey(outbox, CommandKey(command))))
  {
    KnownIsTaken(outbox, command);
    var row := RowWithKey(outbox, CommandKey(command));
    assert KeyFits(row);
    forall i | 0 <= i < |outbox| && IsRowOf(outbox[i], command) ensures outbox[i] == row {
      var j :| 0 <= j < |outbox| && outbox[j] == row;
    }
  }

  // ---------- Repeated commands ----------

  /** A command that was carried out before is told what it did then; any other goes on to its transaction. */
  lemma RepeatedCommandIsAnswered(w: World, req: RequestId)
    requires Reachable(w) && req in w.requests && w.requests[req].phase == Fresh
    ensures var w', command := Do(w, DedupeCheck(req)), w.requests[req].command;
            if IsKnown(w.db.outbox, command)
            then exists r :: IsToldBy(w.db.outbox, command, r) && Becomes(w, w', req, Done(r))
            else Becomes(w, w', req, Unseen)
  {
    ReachableInv(w);
    assert Holds(Log, w.db);
    var command := w.requests[req].command;
    KnownIsTaken(w.db.outbox, command);
    if IsKnown(w.db.outbox, command) {
      KnownIsTold(w.db.outbox, command);
    }
  }

  /** The second check, after a guarded update that matched no session row. */
  lemma SecondCheckAnswers(w: World, req: RequestId)
    requires Reachable(w) && req in w.requests && w.requests[req].phase.MissedAt?
    ensures var w', command := Do(w, DedupeRecheck(req)), w.requests[req].command;
            if IsKnown(w.db.outbox, command)
            then exists r :: IsToldBy(w.db.outbox, command, r) && Becomes(w, w', req, Done(r))
            else Becomes(w, w', req, Conflicting(w.requests[req].phase.ctx))
  {
    ReachableInv(w);
    assert Holds(Log, w.db);
    var command := w.requests[req].command;
    KnownIsTaken(w.db.outbox, command);
    if IsKnown(w.db.outbox, command) {
      KnownIsTold(w.db.outbox, command);
    }
  }

  /** A conflict tells the context version that was read after the miss, and the preference active at its end. */
  lemma ConflictIsTold(w: World, req: RequestId, pref: nat)
    requires Reachable(w) && req in w.requests && IsActive(w.db, pref)
    ensures w.requests[req].phase == Missed ==> Becomes(w, Do(w, ReadContext(req)), req, MissedAt(w.db.ctx))
    ensures w.requests[req].phase.Conflicting? ==>
              Becomes(w, Do(w, ReadPreference(req)), req, Done(Conflict(w.requests[req].phase.ctx, pref)))
  {
    ReachableInv(w);
    ActiveIs(w.db, pref);
  }

  lemma ActiveIs(db: SessionDb, pref: nat)
    requires Inv(db) && IsActive(db, pref)
    ensures ActivePreference(db) == Some(pref) && ViewOf(db).pref == pref && pref + 1 !in db.preferences
  {
    ActiveIsLatest(db);
    assert Holds(Preferences, db);
  }

  // ---------- Commands that take effect ----------

  /** What a finalized text leaves: the user's turn at the end of the conversation, in a new context, with its event. */
  predicate FinalizedBy(db: SessionDb, db': SessionDb, command: Command, id: TurnId, pref: nat)
    requires command.Finalize?
  {
    var Finalize(e, text) := command;
    && db' == db.(ctx := db.ctx + 1, lastSeq := db.lastSeq + 1, turns := db'.turns, outbox := db'.outbox)
    && db'.turns == db.turns[id := Turn(|db.turns| + 1, UserText, UserFinal, db'.ctx, None, text, None, None)]
    && db'.outbox == db.outbox + [EventRow(db'.lastSeq, TurnFinalized(id, db'.ctx, pref), KeyTurn(e))]
  }

  lemma FinalizeShape(db: SessionDb, command: Command, id: TurnId, pref: nat)
    requires command.Finalize? && ActivePreference(db) == Some(pref) && MaxSequence(db.turns) == |db.turns|
    ensures var r := FinalizeTurn(db, id, command.text, command.clientEvent);
            if id in db.turns || KeyTaken(db.outbox, CommandKey(command)) then r == Abort(UniqueViolation)
            else
              && r.Commit? && FinalizedBy(db, r.db, command, id, pref)
              && r.value == Finalized(id, r.db.ctx, pref, r.db.lastSeq)
  {}

  lemma FinalizeTells(db: SessionDb, command: Command, id: TurnId, pref: nat)
    requires Inv(db) && IsActive(db, pref) && command.Finalize?
    ensures var r := FinalizeTurn(db, id, command.text, command.clientEvent);
            if id in db.turns || KeyTaken(db.outbox, CommandKey(command)) then r == Abort(UniqueViolation)
            else
              && r.Commit? && FinalizedBy(db, r.db, command, id, pref)
              && r.value == Finalized(id, r.db.ctx, pref, r.db.lastSeq)
  {
    ActiveIs(db, pref);
    LastPosition(db);
    FinalizeShape(db, command, id, pref);
  }

  /** A finalize of an unused client event id, under an unused turn id, takes effect; any other is refused. */
  lemma FinalizeIsExecuted(w: World, req: RequestId, newTurn: TurnId, rows: seq<TaskId>, pref: nat)
    requires Reachable(w) && req in w.requests && w.requests[req].phase == Unseen && IsActive(w.db, pref)
    requires w.requests[req].command.Finalize?
    ensures var w', command := Do(w, Execute(req, newTurn, rows)), w.requests[req].command;
            if newTurn in w.db.turns || IsKnown(w.db.outbox, command)
            then Becomes(w, w', req, Done(Refused(UniqueViolation)))
            else
              && FinalizedBy(w.db, w'.db, command, newTurn, pref)
              && Becomes(w.(db := w'.db), w', req,
                         Done(FinalizedAs(Finalized(newTurn, w'.db.ctx, pref, w'.db.lastSeq))))
  {
    ReachableInv(w);
    FinalizeTells(w.db, w.requests[req].command, newTurn, pref);
    KnownIsTaken(w.db.outbox, w.requests[req].command);
  }

  /** What an accepted patch leaves: the next preference version, laid over the active one, and its event. */
  predicate PatchedBy(db: SessionDb, db': SessionDb, command: Command, pref: nat)
    requires command.Patch? && pref in db.preferences
  {
    var Patch(e, _, patch, source) := command;
    var active := db.preferences[pref];
    && db' == db.(ctx := db.ctx + 1, lastSeq := db.lastSeq + 1, preferences := db'.preferences, outbox := db'.outbox)
    && db'.preferences == db.preferences[pref := active.(status := Superseded)]
                                        [pref + 1 := Preference(Active, active.payload + patch, source)]
    && db'.outbox == db.outbox + [EventRow(db'.lastSeq, PreferenceUpdated(db'.ctx, pref + 1), KeyPreference(e))]
  }

  lemma PatchTells(db: SessionDb, command: Command, pref: nat)
    requires Inv(db) && IsActive(db, pref) && command.Patch?
    ensures var Patch(e, base, patch, source) := command;
            var r := UpdatePreference(db, base, patch, source, e);
            if db.ctx != base then r == Commit(db, None)
            else if source.Some? && source.value !in db.turns then r == Abort(SourceTurnNotInSession)
            else if KeyTaken(db.outbox, CommandKey(command)) then r == Abort(UniqueViolation)
            else
              && r.Commit? && PatchedBy(db, r.db, command, pref)
              && r.value == Some(Updated(r.db.ctx, pref + 1, r.db.lastSeq))
  {
    ActiveIs(db, pref);
  }

  /** A patch of the current context takes effect, unless its source turn is unknown or its client event id is used;
    a patch of another context misses. */
  lemma PatchIsExecuted(w: World, req: RequestId, newTurn: TurnId, rows: seq<TaskId>, pref: nat)
    requires Reachable(w) && req in w.requests && w.requests[req].phase == Unseen && IsActive(w.db, pref)
    requires w.requests[req].command.Patch?
    ensures var w', command := Do(w, Execute(req, newTurn, rows)), w.requests[req].command;
            var source := command.sourceTurn;
            if w.db.ctx != command.baseCtx then Becomes(w, w', req, Missed)
            else if source.Some? && source.value !in w.db.turns
            then Becomes(w, w', req, Done(Refused(SourceTurnNotInSession)))
            else if IsKnown(w.db.outbox, command) then Becomes(w, w', req, Done(Refused(UniqueViolation)))
            else
              && PatchedBy(w.db, w'.db, command, pref)
              && Becomes(w.(db := w'.db, patches := w.patches + [command.patch]), w', req,
                         Done(UpdatedAs(Updated(w'.db.ctx, pref + 1, w'.db.lastSeq))))
  {
    ReachableInv(w);
    PatchTells(w.db, w.requests[req].command, pref);
    KnownIsTaken(w.db.outbox, w.requests[req].command);
  }

  /** One event for each cancelled task, in the order of the rows. */
  predicate TellsRequests(outbox: seq<EventRow>, outbox': seq<EventRow>, lastSeq: nat, turn: TurnId, ctx: nat, rows: seq<TaskId>) {
    && |outbox'| == |outbox| + |rows| && outbox <= outbox'
    && forall k :: 0 <= k < |rows| ==> outbox'[|outbox| + k] == RequestEvent(lastSeq + 1 + k, rows[k], turn, ctx)
  }

  function RequestEvent(seqNo: nat, id: TaskId, turn: TurnId, ctx: nat): EventRow {
    EventRow(seqNo, TaskMoved(id, CancelRequested, Some(turn), Some(ctx)), KeyTask(id, CancelRequested))
  }

  lemma OneMoreRequest(
    outbox: seq<EventRow>, before: seq<EventRow>, after: seq<EventRow>, lastSeq: nat, turn: TurnId, ctx: nat,
    rows: seq<TaskId>, id: TaskId)
    requires TellsRequests(outbox, before, lastSeq, turn, ctx, rows)
    requires after == before + [RequestEvent(lastSeq + 1 + |rows|, id, turn, ctx)]
    ensures TellsRequests(outbox, after, lastSeq, turn, ctx, rows + [id])
  {}

  lemma {:induction false} RequestsAreTold(db: SessionDb, turn: TurnId, rows: seq<TaskId>)
    requires forall t :: t in rows ==> t in db.tasks && db.tasks[t].ctx == Some(db.ctx)
    requires forall i, j :: 0 <= i < j < |rows| ==> rows[i] != rows[j]
    ensures TellsRequests(db.outbox, RequestAll(db, turn, rows).outbox, db.lastSeq, turn, db.ctx, rows)
  {
    if rows != [] {
      var n := |rows| - 1;
      assert rows == rows[..n] + [rows[n]];
      RequestsAreTold(db, turn, rows[..n]);
      RequestAllChanges(db, turn, rows[..n]);
      OneMoreRequest(db.outbox, RequestAll(db, turn, rows[..n]).outbox, RequestAll(db, turn, rows).outbox,
                     db.lastSeq, turn, db.ctx, rows[..n], rows[n]);
    }
  }

  /** What an accepted interrupt leaves: its tasks asked to cancel, its turn interrupted, a new context, and the log. */
  ghost predicate InterruptedBy(db: SessionDb, db': SessionDb, command: Command, rows: seq<TaskId>)
    requires command.Interrupt? && command.turn in db.turns
  {
    var Interrupt(e, turn, reason) := command;
    var n := |db.outbox| + |rows|;
    && db' == db.(ctx := db.ctx + 1, lastSeq := db.lastSeq + |rows| + 1, turns := db'.turns, tasks := db'.tasks, outbox := db'.outbox)
    && db'.turns == db.turns[turn := db.turns[turn].(status := Interrupted, interruptReason := Some(reason))]
    && (forall t :: t in rows <==> t in TasksOf(db, turn) && db.tasks[t].status in {Queued, Running})
    && db'.tasks.Keys == db.tasks.Keys
    && (forall t :: t in db.tasks ==>
          db'.tasks[t] == if t in rows then db.tasks[t].(status := CancelRequested) else db.tasks[t])
    && |db'.outbox| == n + 1 && TellsRequests(db.outbox, db'.outbox[..n], db.lastSeq, turn, db.ctx, rows)
    && db'.outbox[n] == EventRow(db'.lastSeq, InterruptAccepted(turn, db'.ctx, rows, Interrupted, reason), KeyInterrupt(e))
  }

  lemma InterruptWrites(w: World, command: Command, rows: seq<TaskId>)
    requires Reachable(w) && command.Interrupt? && Enumerates(rows, TasksToCancel(w.db, command.turn))
    requires RegisterInterrupt(w.db, command.turn, command.reason, command.clientEvent, rows).Commit?
    ensures command.turn in w.db.turns
    ensures InterruptedBy(w.db, RegisterInterrupt(w.db, command.turn, command.reason, command.clientEvent, rows).db, command, rows)
  {
    var Interrupt(e, turn, reason) := command;
    InterruptCancelsItsWork(w, turn, reason, e, rows);
    RegisterShape(w.db, turn, reason, e, rows);
    InterruptsIsRequestable(w.db, turn, rows);
    RequestAllChanges(w.db, turn, rows);
    RequestsAreTold(w.db, turn, rows);
    var d := RequestAll(w.db, turn, rows);
    assert RegisterInterrupt(w.db, turn, reason, e, rows).db.outbox[..|d.outbox|] == d.outbox;
  }

  /** An interrupt of a turn of the current context takes effect; one of an unknown or an older turn is refused. */
  lemma InterruptIsExecuted(w: World, req: RequestId, newTurn: TurnId, rows: seq<TaskId>)
    requires Reachable(w) && req in w.requests && w.requests[req].phase == Unseen
    requires w.requests[req].command.Interrupt? && Enumerates(rows, TasksToCancel(w.db, w.requests[req].command.turn))
    ensures var w', command := Do(w, Execute(req, newTurn, rows)), w.requests[req].command;
            if command.turn !in w.db.turns then Becomes(w, w', req, Done(Refused(TurnNotInSession)))
            else if w.db.turns[command.turn].ctx != w.db.ctx then Becomes(w, w', req, Done(Refused(TurnNotCurrent)))
            else if IsKnown(w.db.outbox, command) then Becomes(w, w', req, Done(Refused(UniqueViolation)))
            else
              && InterruptedBy(w.db, w'.db, command, rows)
              && Becomes(w.(db := w'.db), w', req, Done(InterruptedAs(
                   InterruptResult(command.turn, w'.db.ctx, w'.db.lastSeq, rows, Interrupted))))
  {
    var Interrupt(e, turn, reason) := w.requests[req].command;
    KnownIsTaken(w.db.outbox, w.requests[req].command);
    InterruptRefused(w, turn, reason, e, rows);
    if RegisterInterrupt(w.db, turn, reason, e, rows).Commit? {
      InterruptWrites(w, w.requests[req].command, rows);
    }
  }
}
