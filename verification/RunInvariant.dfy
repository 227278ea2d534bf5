/** What holds in every world a run can reach. */
module RunInvariant {
  import opened Rows
  import opened Transactions
  import opened History
  import opened Refinement
  import opened TaskSteps
  import opened InterruptSteps
  import opened ReplySteps
  import opened Runs
  import ConstraintSteps
  import IV = InputValidation

  // ---------- What no transaction takes back ----------

  predicate TaskPersists(task: Task, task': Task) {
    task'.turn == task.turn && task'.ctx == task.ctx && task'.pref == task.pref && task'.itin == task.itin
    && task.attempt <= task'.attempt
  }

  /** The log only grows, versions only rise, and what identifies a row never changes. */
  ghost predicate Grows(db: SessionDb, db': SessionDb) {
    && db.ctx <= db'.ctx
    && db.outbox <= db'.outbox
    && (forall t :: t in db.turns ==>
          t in db'.turns && db'.turns[t].kind == db.turns[t].kind && db'.turns[t].ctx == db.turns[t].ctx
          && db'.turns[t].text == db.turns[t].text)
    && PayloadsPersist(db.preferences, db'.preferences)
    && (forall t :: t in db.tasks ==> t in db'.tasks && TaskPersists(db.tasks[t], db'.tasks[t]))
    && (forall c :: c in db.calls ==> c in db'.calls && db'.calls[c].task == db.calls[c].task)
  }

  const UNFINISHED := {Running, CancelRequested, Cancelled}

  /** What happens to a task behind its runner's back: it may be cancelled, but nobody else finishes it. */
  predicate Undisturbed(task: Task, task': Task) {
    && (task.status in UNFINISHED ==> task'.status in UNFINISHED)
    && (task.status !in {Queued, Failed} ==> task'.status !in {Queued, Failed})
  }

  ghost predicate OthersUndisturbed(db: SessionDb, db': SessionDb, own: Option<TaskId>) {
    forall t :: t in db.tasks && Some(t) != own ==> t in db'.tasks && Undisturbed(db.tasks[t], db'.tasks[t])
  }

  lemma OneTaskGrows(db: SessionDb, db': SessionDb, id: TaskId)
    requires OneTaskStep(db, db', id)
    ensures Grows(db, db') && OthersUndisturbed(db, db', Some(id))
    ensures Undisturbed(db.tasks[id], db'.tasks[id]) ==> OthersUndisturbed(db, db', None)
  {}

  lemma SameGrows(db: SessionDb)
    ensures Grows(db, db) && OthersUndisturbed(db, db, None)
  {}

  lemma FinalizeTurnGrows(db: SessionDb, id: TurnId, text: string, e: string)
    requires FinalizeTurn(db, id, text, e).Commit?
    ensures Grows(db, FinalizeTurn(db, id, text, e).db)
    ensures OthersUndisturbed(db, FinalizeTurn(db, id, text, e).db, None)
  {}

  lemma VersionsRise(db: SessionDb, db': SessionDb)
    requires db' == db.(ctx := db'.ctx, preferences := db'.preferences, lastSeq := db'.lastSeq, outbox := db'.outbox)
    requires db.ctx <= db'.ctx && db.outbox <= db'.outbox && PayloadsPersist(db.preferences, db'.preferences)
    ensures Grows(db, db') && OthersUndisturbed(db, db', None)
  {}

  lemma UpdatePreferenceGrows(db: SessionDb, baseCtx: nat, patch: Payload, source: Option<TurnId>, e: string)
    requires UpdatePreference(db, baseCtx, patch, source, e).Commit?
    ensures Grows(db, UpdatePreference(db, baseCtx, patch, source, e).db)
    ensures OthersUndisturbed(db, UpdatePreference(db, baseCtx, patch, source, e).db, None)
  {
    var db' := UpdatePreference(db, baseCtx, patch, source, e).db;
    assert PayloadsPersist(db.preferences, db'.preferences);
    VersionsRise(db, db');
  }

  lemma RegisterInterruptGrows(db: SessionDb, turn: TurnId, reason: string, e: string, rows: seq<TaskId>)
    requires Enumerates(rows, TasksToCancel(db, turn)) && RegisterInterrupt(db, turn, reason, e, rows).Commit?
    ensures Grows(db, RegisterInterrupt(db, turn, reason, e, rows).db)
    ensures OthersUndisturbed(db, RegisterInterrupt(db, turn, reason, e, rows).db, None)
  {
    RegisterShape(db, turn, reason, e, rows);
    InterruptsIsRequestable(db, turn, rows);
    RequestAllChanges(db, turn, rows);
    ConstraintSteps.RequestAllExtends(db, turn, rows);
  }

  lemma TaskAppears(db: SessionDb, db': SessionDb, id: TaskId)
    requires id !in db.tasks && id in db'.tasks
    requires db' == db.(tasks := db.tasks[id := db'.tasks[id]], lastSeq := db'.lastSeq, outbox := db'.outbox)
    requires db.outbox <= db'.outbox
    ensures Grows(db, db') && OthersUndisturbed(db, db', None)
  {}

  lemma CreateOneGrows(limits: IV.Limits, db: SessionDb, packet: Packet, plan: TaskPlan, id: TaskId)
    requires CreateOne(limits, db, packet, plan, id).Commit?
    ensures Grows(db, CreateOne(limits, db, packet, plan, id).db)
    ensures OthersUndisturbed(db, CreateOne(limits, db, packet, plan, id).db, None)
  {
    if HasTaskKey(db, PlanKey(packet, plan)) {
      SameGrows(db);
    } else {
      TaskAppears(db, CreateOne(limits, db, packet, plan, id).db, id);
    }
  }

  lemma CreateTasksGrows(limits: IV.Limits, db: SessionDb, packet: Packet, id: TaskId)
    requires CreateTasks(limits, db, packet, Decide(packet), [id]).Commit?
    ensures Grows(db, CreateTasks(limits, db, packet, Decide(packet), [id]).db)
    ensures OthersUndisturbed(db, CreateTasks(limits, db, packet, Decide(packet), [id]).db, None)
  {
    if PacketIsCurrent(db, packet, Decide(packet)) {
      CreateTasksIsCreateOne(limits, db, packet, id);
      CreateOneGrows(limits, db, packet, Decide(packet).plans[0], id);
    }
  }

  /** The decision has one plan, so creating its tasks is creating one. */
  lemma CreateTasksIsCreateOne(limits: IV.Limits, db: SessionDb, packet: Packet, id: TaskId)
    requires PacketIsCurrent(db, packet, Decide(packet))
    ensures var r, one := CreateTasks(limits, db, packet, Decide(packet), [id]),
                          CreateOne(limits, db, packet, Decide(packet).plans[0], id);
            if one.Abort? then r == Abort(one.error) else r == Commit(one.db, [one.value])
  {
    var plans := Decide(packet).plans;
    assert plans[..0] == [] && [id][..0] == [];
    assert CreateAll(limits, db, packet, plans[..0], [id][..0]) == Commit(db, []);
    assert forall x: TaskId :: [] + [x] == [x];
  }

  lemma TurnAppears(db: SessionDb, db': SessionDb, id: TurnId)
    requires id !in db.turns && id in db'.turns
    requires db' == db.(turns := db.turns[id := db'.turns[id]], itineraries := db'.itineraries,
                        lastSeq := db'.lastSeq, outbox := db'.outbox)
    requires db.outbox <= db'.outbox
    ensures Grows(db, db') && OthersUndisturbed(db, db', None)
  {}

  lemma ComposeReplyGrows(db: SessionDb, turn: TurnId, ctx: nat, reply: TurnId, taskRows: seq<TaskId>, callRows: seq<CallId>)
    requires ComposeRows(PlanCompose(db, turn, ctx), taskRows, callRows)
    requires ComposeReply(db, turn, ctx, reply, taskRows, callRows).Commit?
    requires ComposeReply(db, turn, ctx, reply, taskRows, callRows).value != ItineraryConflict
    ensures Grows(db, ComposeReply(db, turn, ctx, reply, taskRows, callRows).db)
    ensures OthersUndisturbed(db, ComposeReply(db, turn, ctx, reply, taskRows, callRows).db, None)
  {
    var db' := ComposeReply(db, turn, ctx, reply, taskRows, callRows).db;
    if db' == db {
      SameGrows(db);
    } else {
      TurnAppears(db, db', reply);
    }
  }

  // ---------- The world invariant ----------

  /** The session has moved past the task's context: nothing can make the task current again. */
  predicate Stale(db: SessionDb, id: TaskId) {
    id in db.tasks && db.tasks[id].ctx.Some? && db.tasks[id].ctx.value < db.ctx
  }

  predicate RunnerOk(db: SessionDb, r: Runner) {
    && r.task in db.tasks && db.tasks[r.task].attempt == 1
    && OwnsCall(db, r.task, r.call) && r.taskType == MockTravel
    && (r.pc in {RecheckKey, RecheckRow, Committing} ==> r.output.Some?)
    && (if r.pc == Failing then db.tasks[r.task].status !in {Queued, Failed}
        else db.tasks[r.task].status in UNFINISHED)
    && (r.cancelSeen ==> Stale(db, r.task))
  }

  ghost predicate RunnersOk(w: World) {
    && (forall r :: r in w.runners ==> RunnerOk(w.db, w.runners[r]))
    && (forall r, q :: r in w.runners && q in w.runners && w.runners[r].task == w.runners[q].task ==> r == q)
  }

  predicate Accepted(response: Response) {
    response.FinalizedAs? || response.UpdatedAs? || response.InterruptedAs?
  }

  /** An accepted response is what the one row with the command's key says. */
  ghost predicate RequestOk(db: SessionDb, r: Request) {
    r.phase.Done? && Accepted(r.phase.response) ==>
      && KeyTaken(db.outbox, CommandKey(r.command))
      && r.phase.response == ResponseOf(RowWithKey(db.outbox, CommandKey(r.command)))
  }

  function Overlay(patches: seq<Payload>): Payload {
    if patches == [] then map[] else Overlay(patches[..|patches| - 1]) + patches[|patches| - 1]
  }

  ghost predicate PatchesOk(db: SessionDb, patches: seq<Payload>) {
    && |patches| == ViewOf(db).pref
    && forall x :: x in db.preferences ==> x <= |patches| && db.preferences[x].payload == Overlay(patches[..x])
  }

  ghost predicate MarksOk(w: World) {
    && (forall t :: t in w.cancelKeys ==> Stale(w.db, t))
    && (forall i :: 0 <= i < |w.db.outbox| && w.db.outbox[i].body.InterruptAccepted? ==>
          forall t :: t in w.db.outbox[i].body.cancelled ==> Stale(w.db, t))
  }

  ghost predicate PacketsOk(w: World) {
    forall p :: p in w.packets ==> PacketOk(w.db, p)
  }

  ghost predicate RequestsOk(w: World) {
    forall r :: r in w.requests ==> RequestOk(w.db, w.requests[r])
  }

  /** The invariant, part by part: a proof looks only at the parts it opens. */
  datatype Part = Database | Runners | Answers | Payloads | Marks | Packets | Conflicts

  ghost predicate Stands(p: Part, w: World) {
    match p
    case Database => Inv(w.db)
    case Runners => RunnersOk(w)
    case Answers => RequestsOk(w)
    case Payloads => PatchesOk(w.db, w.patches)
    case Marks => MarksOk(w)
    case Packets => PacketsOk(w)
    case Conflicts => w.conflicts == {}
  }

  ghost predicate WorldInv(w: World) {
    forall p :: Stands(p, w)
  }

  lemma Open(w: World)
    requires WorldInv(w)
    ensures Inv(w.db) && RunnersOk(w) && RequestsOk(w) && PatchesOk(w.db, w.patches)
    ensures MarksOk(w) && PacketsOk(w) && w.conflicts == {}
  {
    assert Stands(Database, w) && Stands(Runners, w) && Stands(Answers, w) && Stands(Payloads, w);
    assert Stands(Marks, w) && Stands(Packets, w) && Stands(Conflicts, w);
  }

  lemma Close(w: World)
    requires Inv(w.db) && RunnersOk(w) && RequestsOk(w) && PatchesOk(w.db, w.patches)
    requires MarksOk(w) && PacketsOk(w) && w.conflicts == {}
    ensures WorldInv(w)
  {
    forall p ensures Stands(p, w) {}
  }

  // ---------- Carrying the invariant over a transaction ----------

  lemma RowStays(outbox: seq<EventRow>, outbox': seq<EventRow>, key: DedupeKey)
    requires outbox <= outbox' && KeysUnique(outbox') && KeyTaken(outbox, key)
    ensures KeyTaken(outbox', key) && RowWithKey(outbox', key) == RowWithKey(outbox, key)
  {
    var i :| 0 <= i < |outbox| && outbox[i].key == key;
    assert outbox'[i].key == key;
    var a, b := RowWithKey(outbox, key), RowWithKey(outbox', key);
    assert a in outbox' && b in outbox';
  }

  lemma RequestsCarry(w: World, w': World)
    requires RequestsOk(w) && Inv(w'.db) && w.db.outbox <= w'.db.outbox && w'.requests == w.requests
    ensures RequestsOk(w')
  {
    assert Holds(Log, w'.db);
    forall r | r in w'.requests ensures RequestOk(w'.db, w'.requests[r]) {
      assert RequestOk(w.db, w.requests[r]);
      if KeyTaken(w.db.outbox, CommandKey(w.requests[r].command)) {
        RowStays(w.db.outbox, w'.db.outbox, CommandKey(w.requests[r].command));
      }
    }
  }

  lemma StaysStale(db: SessionDb, db': SessionDb, id: TaskId)
    requires Grows(db, db') && Stale(db, id)
    ensures Stale(db', id)
  {}

  lemma RunnerCarries(db: SessionDb, db': SessionDb, r: Runner)
    requires Inv(db') && Grows(db, db') && OthersUndisturbed(db, db', None) && RunnerOk(db, r)
    ensures RunnerOk(db', r)
  {
    TaskMatchesView(db', r.task);
  }

  lemma OtherRunnerCarries(db: SessionDb, db': SessionDb, own: TaskId, r: Runner)
    requires Inv(db') && Grows(db, db') && OthersUndisturbed(db, db', Some(own)) && RunnerOk(db, r) && r.task != own
    ensures RunnerOk(db', r)
  {
    TaskMatchesView(db', r.task);
  }

  lemma MarksCarry(w: World, w': World)
    requires MarksOk(w) && Grows(w.db, w'.db) && NoNewInterrupts(w.db.outbox, w'.db.outbox) && w'.cancelKeys == w.cancelKeys
    ensures MarksOk(w')
  {
    forall t | t in w'.cancelKeys ensures Stale(w'.db, t) {
      StaysStale(w.db, w'.db, t);
    }
    forall i, t | 0 <= i < |w'.db.outbox| && w'.db.outbox[i].body.InterruptAccepted? && t in w'.db.outbox[i].body.cancelled
      ensures Stale(w'.db, t)
    {
      assert w'.db.outbox[i] == w.db.outbox[i];
      StaysStale(w.db, w'.db, t);
    }
  }

  lemma PacketsCarry(w: World, w': World)
    requires PacketsOk(w) && Grows(w.db, w'.db) && w'.packets == w.packets
    ensures PacketsOk(w')
  {
    forall p | p in w'.packets ensures PacketOk(w'.db, p) {
      assert PacketOk(w.db, p);
    }
  }

  lemma SamePreferenceVersion(db: SessionDb, db': SessionDb)
    requires Inv(db) && Inv(db') && db'.preferences == db.preferences
    ensures ViewOf(db').pref == ViewOf(db).pref
  {
    ActiveIsLatest(db);
    ActiveIsLatest(db');
    assert Holds(Preferences, db) && Holds(Preferences, db');
    assert ViewOf(db).pref in db.preferences && ViewOf(db').pref in db'.preferences;
  }

  /** A transaction that leaves the preferences alone and interrupts nothing carries all but its own runner over. */
  lemma TransactionCarries(w: World, w': World)
    requires WorldInv(w) && Inv(w'.db) && Grows(w.db, w'.db)
    requires w'.db.preferences == w.db.preferences && NoNewInterrupts(w.db.outbox, w'.db.outbox)
    requires w' == w.(db := w'.db, runners := w'.runners)
    ensures RunnersOk(w') ==> WorldInv(w')
  {
    Open(w);
    RequestsCarry(w, w');
    MarksCarry(w, w');
    PacketsCarry(w, w');
    SamePreferenceVersion(w.db, w'.db);
    if RunnersOk(w') {
      Close(w');
    }
  }

  lemma RunnersCarry(w: World, w': World)
    requires RunnersOk(w) && Inv(w'.db) && Grows(w.db, w'.db) && OthersUndisturbed(w.db, w'.db, None)
    requires w'.runners == w.runners
    ensures RunnersOk(w')
  {
    forall r | r in w'.runners ensures RunnerOk(w'.db, w'.runners[r]) {
      RunnerCarries(w.db, w'.db, w.runners[r]);
    }
  }

  lemma OtherRunnersCarry(w: World, w': World, run: RunId)
    requires RunnersOk(w) && Inv(w'.db) && run in w.runners
    requires Grows(w.db, w'.db) && OthersUndisturbed(w.db, w'.db, Some(w.runners[run].task))
    requires forall r :: r in w'.runners && r != run ==> r in w.runners && w'.runners[r] == w.runners[r]
    requires run in w'.runners ==> RunnerOk(w'.db, w'.runners[run]) && w'.runners[run].task == w.runners[run].task
    ensures RunnersOk(w')
  {
    forall r | r in w'.runners ensures RunnerOk(w'.db, w'.runners[r]) {
      if r != run {
        OtherRunnerCarries(w.db, w'.db, w.runners[run].task, w.runners[r]);
      }
    }
  }

  // ---------- Initially ----------

  lemma NewSessionInv(preference: Payload)
    ensures Inv(NewSession(preference)) && ViewOf(NewSession(preference)) == EMPTY.(pref := 1)
  {
    var db := NewSession(preference);
    ViewAppend([], EventRow(1, SessionCreated(0, 1), KeySession));
    assert [] + [EventRow(1, SessionCreated(0, 1), KeySession)] == db.outbox;
    assert ViewOf(db) == EMPTY.(pref := 1);
    assert forall key :: KeyTaken(db.outbox, key) ==> key == KeySession;
    forall a ensures Holds(a, db) {
      match a
      case _ =>
    }
  }

  lemma InitInv(limits: IV.Limits, preference: Payload)
    ensures WorldInv(Init(limits, preference))
  {
    NewSessionInv(preference);
    assert [preference][..1] == [preference];
    assert Overlay([preference]) == map[] + preference;
    Close(Init(limits, preference));
  }
}
