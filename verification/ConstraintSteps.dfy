/** No transaction breaks a unique constraint: the checks that abort it are all that can fail.

  Nothing is assumed here about how the database came about, only that its constraints hold.
 */
module ConstraintSteps {
  import opened Rows
  import opened Transactions
  import IV = InputValidation

  /** `db'` differs from `db` in nothing the constraint is about. */
  ghost predicate Untouched(c: Constraint, db: SessionDb, db': SessionDb) {
    match c
    case EventNumbers => db'.outbox == db.outbox && db'.lastSeq == db.lastSeq
    case EventKeys => db'.outbox == db.outbox
    case TurnNumbers => db'.turns == db.turns
    case TaskKeysUnique => db'.tasks == db.tasks
    case Requests => db'.calls == db.calls
    case OneActive => db'.preferences == db.preferences
    case OneConfirmed => db'.itineraries == db.itineraries
  }

  lemma UntouchedKeeps(c: Constraint, db: SessionDb, db': SessionDb)
    requires Enforced(c, db) && Untouched(c, db, db')
    ensures Enforced(c, db')
  {
    match c
    case OneActive => assert forall v :: IsActive(db', v) <==> IsActive(db, v);
    case OneConfirmed => assert forall v :: IsConfirmed(db', v) <==> IsConfirmed(db, v);
    case _ =>
  }

  /** Only the constraints in `touched` need a proof. */
  lemma Keeps(db: SessionDb, db': SessionDb, touched: set<Constraint>)
    requires Constraints(db)
    requires forall c :: c in touched ==> Enforced(c, db')
    requires forall c :: c !in touched ==> Untouched(c, db, db')
    ensures Constraints(db')
  {
    forall c ensures Enforced(c, db') {
      if c !in touched {
        UntouchedKeeps(c, db, db');
      }
    }
  }

  lemma AppendKeeps(db: SessionDb, body: EventBody, key: DedupeKey)
    requires Constraints(db) && !KeyTaken(db.outbox, key)
    ensures Constraints(Append(db, body, key))
  {
    assert Enforced(EventNumbers, db) && Enforced(EventKeys, db);
    Keeps(db, Append(db, body, key), {EventNumbers, EventKeys});
  }

  lemma AppendOnceKeeps(db: SessionDb, body: EventBody, key: DedupeKey)
    requires Constraints(db)
    ensures Constraints(AppendOnce(db, body, key))
  {
    if !KeyTaken(db.outbox, key) {
      AppendKeeps(db, body, key);
    }
  }

  lemma TurnKeeps(db: SessionDb, db': SessionDb, id: TurnId, turn: Turn)
    requires Constraints(db) && db' == db.(ctx := db'.ctx, turns := db.turns[id := turn])
    requires if id in db.turns then turn.sequenceNo == db.turns[id].sequenceNo else turn.sequenceNo == MaxSequence(db.turns) + 1
    ensures Constraints(db')
  {
    assert Enforced(TurnNumbers, db);
    Keeps(db, db', {TurnNumbers});
  }

  lemma TaskKeeps(db: SessionDb, id: TaskId, task: Task)
    requires Constraints(db) && id in db.tasks && task.key == db.tasks[id].key
    ensures Constraints(db.(tasks := db.tasks[id := task]))
  {
    assert Enforced(TaskKeysUnique, db);
    Keeps(db, db.(tasks := db.tasks[id := task]), {TaskKeysUnique});
  }

  lemma CallsKeep(db: SessionDb, calls': map<CallId, ToolCall>)
    requires Constraints(db) && calls'.Keys == db.calls.Keys
    requires forall c :: c in db.calls ==> SameRow(calls'[c], db.calls[c])
    ensures Constraints(db.(calls := calls'))
  {
    assert Enforced(Requests, db);
    Keeps(db, db.(calls := calls'), {Requests});
  }

  lemma MoveTaskKeeps(db: SessionDb, id: TaskId, to: TaskStatus)
    requires Constraints(db) && id in db.tasks
    ensures Constraints(MoveTask(db, id, to))
  {
    TaskKeeps(db, id, db.tasks[id].(status := to));
    AppendOnceKeeps(db.(tasks := db.tasks[id := db.tasks[id].(status := to)]), Moved(id, db.tasks[id], to), KeyTask(id, to));
  }

  // ---------- The loops only append ----------

  lemma TakenStays(outbox: seq<EventRow>, outbox': seq<EventRow>)
    requires outbox <= outbox'
    ensures forall key :: KeyTaken(outbox, key) ==> KeyTaken(outbox', key)
  {
    forall key | KeyTaken(outbox, key) ensures KeyTaken(outbox', key) {
      var i :| 0 <= i < |outbox| && outbox[i].key == key;
      assert outbox'[i].key == key;
    }
  }

  lemma {:induction false} RequestAllExtends(db: SessionDb, turn: TurnId, rows: seq<TaskId>)
    ensures db.outbox <= RequestAll(db, turn, rows).outbox && RequestAll(db, turn, rows).tasks.Keys == db.tasks.Keys
    ensures forall key :: KeyTaken(db.outbox, key) ==> KeyTaken(RequestAll(db, turn, rows).outbox, key)
  {
    if rows != [] {
      RequestAllExtends(db, turn, rows[..|rows| - 1]);
    }
    TakenStays(db.outbox, RequestAll(db, turn, rows).outbox);
  }

  lemma {:induction false} DiscardAllExtends(db: SessionDb, rows: seq<TaskId>)
    ensures DiscardAll(db, rows).tasks.Keys == db.tasks.Keys
    ensures forall key :: KeyTaken(db.outbox, key) ==> KeyTaken(DiscardAll(db, rows).outbox, key)
    ensures db.outbox <= DiscardAll(db, rows).outbox
  {
    if rows != [] {
      DiscardAllExtends(db, rows[..|rows| - 1]);
    }
    TakenStays(db.outbox, DiscardAll(db, rows).outbox);
  }

  // ---------- The transactions ----------

  lemma FinalizeTurnConstraints(db: SessionDb, id: TurnId, text: string, e: string)
    requires Constraints(db) && FinalizeTurn(db, id, text, e).Commit?
    ensures Constraints(FinalizeTurn(db, id, text, e).db)
  {
    var turn := FinalizeTurn(db, id, text, e).db.turns[id];
    var d := db.(ctx := db.ctx + 1, turns := db.turns[id := turn]);
    TurnKeeps(db, d, id, turn);
    AppendKeeps(d, TurnFinalized(id, db.ctx + 1, ActivePreference(db).value), KeyTurn(e));
  }

  lemma NewActiveKeeps(db: SessionDb, db': SessionDb, pref: nat, payload: Payload, source: Option<TurnId>)
    requires Constraints(db) && IsActive(db, pref) && pref + 1 !in db.preferences
    requires db' == db.(ctx := db'.ctx,
                        preferences := db.preferences[pref := db.preferences[pref].(status := Superseded)]
                                                     [pref + 1 := Preference(Active, payload, source)])
    ensures Constraints(db')
  {
    assert Enforced(OneActive, db);
    forall a ensures IsActive(db', a) ==> a == pref + 1 {
      assert IsActive(db, a) ==> a == pref;
    }
    Keeps(db, db', {OneActive});
  }

  lemma UpdatePreferenceConstraints(db: SessionDb, baseCtx: nat, patch: Payload, source: Option<TurnId>, e: string)
    requires Constraints(db) && UpdatePreference(db, baseCtx, patch, source, e).Commit?
    ensures Constraints(UpdatePreference(db, baseCtx, patch, source, e).db)
  {
    var r := UpdatePreference(db, baseCtx, patch, source, e);
    if r.value.Some? {
      var pref := ActivePreference(db).value;
      var d := db.(ctx := db.ctx + 1, preferences := r.db.preferences);
      NewActiveKeeps(db, d, pref, db.preferences[pref].payload + patch, source);
      AppendKeeps(d, PreferenceUpdated(db.ctx + 1, pref + 1), KeyPreference(e));
    }
  }

  lemma {:induction false} RequestAllConstraints(db: SessionDb, turn: TurnId, rows: seq<TaskId>)
    requires Constraints(db) && forall i, j :: 0 <= i < j < |rows| ==> rows[i] != rows[j]
    requires forall t :: t in rows ==> !KeyTaken(db.outbox, KeyTask(t, CancelRequested))
    ensures Constraints(RequestAll(db, turn, rows))
    ensures forall key :: KeyTaken(RequestAll(db, turn, rows).outbox, key) ==>
              KeyTaken(db.outbox, key) || (key.KeyTask? && key.task in rows && key.status == CancelRequested)
  {
    if rows != [] {
      var n := |rows| - 1;
      var t := rows[n];
      assert forall x :: x in rows[..n] ==> x in rows;
      RequestAllConstraints(db, turn, rows[..n]);
      var d := RequestAll(db, turn, rows[..n]);
      if t in d.tasks {
        assert t in rows && t !in rows[..n];
        TaskKeeps(d, t, d.tasks[t].(status := CancelRequested));
        AppendKeeps(d.(tasks := d.tasks[t := d.tasks[t].(status := CancelRequested)]),
                    TaskMoved(t, CancelRequested, Some(turn), d.tasks[t].ctx), KeyTask(t, CancelRequested));
      }
    }
  }

  lemma RegisterInterruptConstraints(db: SessionDb, turn: TurnId, reason: string, e: string, rows: seq<TaskId>)
    requires Constraints(db) && Enumerates(rows, TasksToCancel(db, turn))
    requires RegisterInterrupt(db, turn, reason, e, rows).Commit?
    ensures Constraints(RegisterInterrupt(db, turn, reason, e, rows).db)
  {
    RequestAllConstraints(db, turn, rows);
    RequestAllTurns(db, turn, rows);
    var d := RequestAll(db, turn, rows);
    var row := db.turns[turn].(status := Interrupted, interruptReason := Some(reason));
    var d1 := d.(ctx := db.ctx + 1, turns := db.turns[turn := row]);
    TurnKeeps(d, d1, turn, row);
    AppendKeeps(d1, InterruptAccepted(turn, db.ctx + 1, rows, Interrupted, reason), KeyInterrupt(e));
  }

  lemma {:induction false} RequestAllTurns(db: SessionDb, turn: TurnId, rows: seq<TaskId>)
    ensures var d := RequestAll(db, turn, rows);
            d == db.(tasks := d.tasks, lastSeq := d.lastSeq, outbox := d.outbox)
  {
    if rows != [] {
      RequestAllTurns(db, turn, rows[..|rows| - 1]);
    }
  }

  lemma CreateOneConstraints(limits: IV.Limits, db: SessionDb, packet: Packet, plan: TaskPlan, id: TaskId)
    requires Constraints(db) && CreateOne(limits, db, packet, plan, id).Commit?
    ensures Constraints(CreateOne(limits, db, packet, plan, id).db)
  {
    if !HasTaskKey(db, PlanKey(packet, plan)) {
      var d := db.(tasks := CreateOne(limits, db, packet, plan, id).db.tasks);
      assert Enforced(TaskKeysUnique, db);
      assert Enforced(TaskKeysUnique, d);
      Keeps(db, d, {TaskKeysUnique});
      AppendKeeps(d, TaskQueued(id, packet.turn, packet.ctx, packet.pref, packet.itin, plan.taskType), KeyTask(id, Queued));
    }
  }

  lemma {:induction false} CreateAllConstraints(
    limits: IV.Limits, db: SessionDb, packet: Packet, plans: seq<TaskPlan>, ids: seq<TaskId>)
    requires |ids| == |plans| && Constraints(db) && CreateAll(limits, db, packet, plans, ids).Commit?
    ensures Constraints(CreateAll(limits, db, packet, plans, ids).db)
    decreases |plans|
  {
    if plans != [] {
      var n := |plans| - 1;
      CreateAllConstraints(limits, db, packet, plans[..n], ids[..n]);
      CreateOneConstraints(limits, CreateAll(limits, db, packet, plans[..n], ids[..n]).db, packet, plans[n], ids[n]);
    }
  }

  lemma ClaimTaskConstraints(db: SessionDb, id: TaskId, newCall: CallId)
    requires Constraints(db) && ClaimTask(db, id, newCall).Commit?
    ensures Constraints(ClaimTask(db, id, newCall).db)
  {
    if id in db.tasks && db.tasks[id].status == CancelRequested {
      MoveTaskKeeps(db, id, Cancelled);
    } else if id in db.tasks && db.tasks[id].status == Queued {
      var attempted := db.(tasks := db.tasks[id := db.tasks[id].(attempt := db.tasks[id].attempt + 1)]);
      TaskKeeps(db, id, attempted.tasks[id]);
      MoveTaskKeeps(attempted, id, Running);
      if db.tasks[id].taskType == MockTravel {
        var db' := ClaimTask(db, id, newCall).db;
        assert Enforced(Requests, db);
        assert Enforced(Requests, db');
        Keeps(MoveTask(attempted, id, Running), db', {Requests});
      }
    }
  }

  lemma MarkCancelledConstraints(db: SessionDb, id: TaskId)
    requires Constraints(db)
    ensures Constraints(MarkCancelled(db, id))
  {
    if id in db.tasks && db.tasks[id].status == CancelRequested {
      CallsKeep(db, CancelOpenCalls(db.calls, id));
      MoveTaskKeeps(db.(calls := CancelOpenCalls(db.calls, id)), id, Cancelled);
    }
  }

  lemma FinishCallKeeps(db: SessionDb, call: Option<CallId>, status: CallStatus, output: Option<ToolOutput>)
    requires Constraints(db)
    ensures Constraints(db.(calls := FinishCall(db.calls, call, status, output)))
  {
    CallsKeep(db, FinishCall(db.calls, call, status, output));
  }

  lemma CommitResultConstraints(db: SessionDb, id: TaskId, call: Option<CallId>, output: ToolOutput, cancelSeen: bool)
    requires Constraints(db)
    ensures Constraints(CommitResult(db, id, call, output, cancelSeen))
  {
    if id in db.tasks {
      var stored := db.(tasks := db.tasks[id := db.tasks[id].(result := Some(output))]);
      TaskKeeps(db, id, stored.tasks[id]);
      var discard := MustDiscard(db, db.tasks[id], cancelSeen);
      var status := if discard then CallDiscarded else CallSucceeded;
      FinishCallKeeps(stored, call, status, Some(output));
      MoveTaskKeeps(stored.(calls := FinishCall(db.calls, call, status, Some(output))), id, if discard then Discarded else Succeeded);
    }
  }

  lemma FailTaskConstraints(db: SessionDb, id: TaskId, call: Option<CallId>)
    requires Constraints(db)
    ensures Constraints(FailTask(db, id, call))
  {
    if id in db.tasks && db.tasks[id].status == CancelRequested {
      FinishCallKeeps(db, call, CallCancelled, None);
      MoveTaskKeeps(db.(calls := FinishCall(db.calls, call, CallCancelled, None)), id, Cancelled);
    } else if id in db.tasks && db.tasks[id].status !in {Cancelled, Discarded, Succeeded} {
      FinishCallKeeps(db, call, CallFailed, None);
      var d := db.(calls := FinishCall(db.calls, call, CallFailed, None));
      TaskKeeps(d, id, d.tasks[id].(status := Failed));
      AppendOnceKeeps(d.(tasks := d.tasks[id := d.tasks[id].(status := Failed)]),
                      TaskMoved(id, Failed, None, None), KeyTask(id, Failed));
    }
  }

  lemma {:induction false} DiscardAllConstraints(db: SessionDb, rows: seq<TaskId>)
    requires Constraints(db) && forall i, j :: 0 <= i < j < |rows| ==> rows[i] != rows[j]
    requires forall t :: t in rows ==> !KeyTaken(db.outbox, KeyTask(t, Discarded))
    ensures Constraints(DiscardAll(db, rows))
    ensures forall key :: KeyTaken(DiscardAll(db, rows).outbox, key) ==>
              KeyTaken(db.outbox, key) || (key.KeyTask? && key.task in rows && key.status == Discarded)
  {
    if rows != [] {
      var n := |rows| - 1;
      var t := rows[n];
      assert forall x :: x in rows[..n] ==> x in rows;
      DiscardAllConstraints(db, rows[..n]);
      var d := DiscardAll(db, rows[..n]);
      if t in d.tasks {
        assert t in rows && t !in rows[..n];
        TaskKeeps(d, t, d.tasks[t].(status := Discarded));
        AppendKeeps(d.(tasks := d.tasks[t := d.tasks[t].(status := Discarded)]),
                    Moved(t, d.tasks[t], Discarded), KeyTask(t, Discarded));
      }
    }
  }

  lemma OnlyConfirmed(db: SessionDb, a: nat)
    requires Enforced(OneConfirmed, db) && IsConfirmed(db, a)
    ensures ConfirmedItinerary(db) == Some(a)
  {}

  lemma NewConfirmedKeeps(db: SessionDb, version: nat, row: Itinerary)
    requires Constraints(db) && version !in db.itineraries && row.status == Confirmed
    ensures Constraints(db.(itineraries := Supersede(db.itineraries, ConfirmedItinerary(db))[version := row]))
  {
    var db' := db.(itineraries := Supersede(db.itineraries, ConfirmedItinerary(db))[version := row]);
    assert Enforced(OneConfirmed, db);
    forall a: nat | IsConfirmed(db, a) ensures ConfirmedItinerary(db) == Some(a) {
      OnlyConfirmed(db, a);
    }
    assert forall a: nat :: IsConfirmed(db', a) && a != version ==> IsConfirmed(db, a);
    Keeps(db, db', {OneConfirmed});
  }

  lemma ComposeReplyConstraints(
    db: SessionDb, turn: TurnId, ctx: nat, reply: TurnId, taskRows: seq<TaskId>, callRows: seq<CallId>)
    requires Constraints(db) && ComposeRows(PlanCompose(db, turn, ctx), taskRows, callRows)
    requires ComposeReply(db, turn, ctx, reply, taskRows, callRows).Commit?
    ensures Constraints(ComposeReply(db, turn, ctx, reply, taskRows, callRows).db)
  {
    var plan := PlanCompose(db, turn, ctx);
    if plan.Build? {
      if CurrentItinerary(db) != plan.target {
        DiscardAllConstraints(db, taskRows);
      } else {
        ConfirmConstraints(db, turn, ctx, reply, plan.pref, plan.target, taskRows, callRows);
      }
    }
  }

  lemma ConfirmConstraints(
    db: SessionDb, turn: TurnId, ctx: nat, reply: TurnId, pref: nat, target: nat, taskRows: seq<TaskId>, callRows: seq<CallId>)
    requires Constraints(db) && pref in db.preferences && (forall c :: c in callRows ==> c in db.calls)
    requires target + 1 !in db.itineraries && reply !in db.turns
    requires !KeyTaken(db.outbox, KeyItinerary(turn, ctx)) && !KeyTaken(db.outbox, KeyReply(turn, ctx))
    ensures Constraints(ConfirmAndReply(db, turn, ctx, reply, pref, target, taskRows, callRows).db)
  {
    var db' := ConfirmAndReply(db, turn, ctx, reply, pref, target, taskRows, callRows).db;
    NewConfirmedKeeps(db, target + 1, db'.itineraries[target + 1]);
    var d1 := db.(itineraries := db'.itineraries);
    var body := ItineraryConfirmed(target + 1, ctx, pref, taskRows, callRows);
    AppendKeeps(d1, body, KeyItinerary(turn, ctx));
    var d2 := Append(d1, body, KeyItinerary(turn, ctx));
    var d3 := d2.(turns := db.turns[reply := db'.turns[reply]]);
    TurnKeeps(d2, d3, reply, db'.turns[reply]);
    AppendKeeps(d3, ReplyCreated(reply, turn, ctx, db'.turns[reply].reply.value), KeyReply(turn, ctx));
  }
}
