/** Composing a reply keeps the invariant; in a reachable state none of its guards can lose the reply. */
module ReplySteps {
  import opened Rows
  import opened Transactions
  import opened History
  import opened Refinement
  import opened TaskSteps

  /** Before the reply a turn has one succeeded task, with one succeeded call, aimed at the current itinerary. */
  lemma OneSource(db: SessionDb, turn: TurnId, id: TaskId, other: TaskId)
    requires Inv(db) && id in db.tasks && other in db.tasks
    requires db.tasks[id].turn == Some(turn) && db.tasks[other].turn == Some(turn) && db.tasks[id].ctx == Some(db.ctx)
    requires !KeyTaken(db.outbox, KeyReply(turn, db.ctx))
    ensures id == other
    ensures db.tasks[id].itin == Some(CurrentItinerary(db)) && db.tasks[id].pref == ActivePreference(db)
    ensures turn in ViewOf(db).turns && !ViewOf(db).turns[turn].replied
  {
    TaskMatchesView(db, id);
    TaskMatchesView(db, other);
    ActiveIsLatest(db);
    ConfirmedIsLatest(db);
    InvIsSound(db);
    assert Holds(ReplyKeys, db);
    var v := ViewOf(db);
    assert IsUser(v, turn) && v.turns[turn].ctx == v.ctx;
  }

  lemma OneSucceededCall(db: SessionDb, id: TaskId) returns (c: CallId)
    requires Inv(db) && id in db.tasks && db.tasks[id].status == Succeeded
    ensures c in db.calls && db.calls[c].task == id && db.calls[c].status == CallSucceeded
    ensures Some(db.calls[c].ctx) == db.tasks[id].ctx && Some(db.calls[c].pref) == db.tasks[id].pref
    ensures forall d :: d in db.calls && db.calls[d].task == id ==> d == c
  {
    TaskMatchesView(db, id);
    assert HasCall(db.calls, id);
    c :| c in db.calls && db.calls[c].task == id;
    assert CallOk(db.tasks, db.calls[c]);
  }

  /** `compose_reply` finds everything it needs as soon as one task of the current turn has succeeded. */
  lemma PlanIsBuild(db: SessionDb, turn: TurnId, id: TaskId) returns (c: CallId)
    requires Inv(db) && id in db.tasks && db.tasks[id].status == Succeeded
    requires db.tasks[id].turn == Some(turn) && db.tasks[id].ctx == Some(db.ctx)
    requires !KeyTaken(db.outbox, KeyReply(turn, db.ctx))
    ensures PlanCompose(db, turn, db.ctx) == Build(ViewOf(db).pref, {id}, {c}, CurrentItinerary(db))
    ensures c in db.calls && db.calls[c].task == id && db.calls[c].status == CallSucceeded
  {
    ActiveIsLatest(db);
    OneSource(db, turn, id, id);
    c := OneSucceededCall(db, id);
    var pref := ViewOf(db).pref;
    var tasks := SucceededTasks(db, turn, db.ctx, pref);
    forall other | other in tasks ensures other == id {
      OneSource(db, turn, id, other);
    }
    assert id in tasks;
    assert tasks == {id};
    var calls := SucceededCalls(db, tasks, db.ctx, pref);
    assert c in calls;
    assert calls == {c};
    assert forall t :: t in tasks ==> db.tasks[t].itin == Some(CurrentItinerary(db));
    assert CommonTarget(db, tasks) == Some(CurrentItinerary(db)) by {
      assert CommonTarget(db, tasks).Some? ==> db.tasks[id].itin == CommonTarget(db, tasks);
    }
  }

  /** Whenever it builds, it builds from exactly one task and one call. */
  lemma BuildShape(db: SessionDb, turn: TurnId, ctx: nat) returns (id: TaskId, c: CallId)
    requires Inv(db) && PlanCompose(db, turn, ctx).Build?
    ensures ctx == db.ctx && !KeyTaken(db.outbox, KeyReply(turn, ctx))
    ensures id in db.tasks && db.tasks[id].status == Succeeded
    ensures db.tasks[id].turn == Some(turn) && db.tasks[id].ctx == Some(ctx)
    ensures PlanCompose(db, turn, ctx) == Build(ViewOf(db).pref, {id}, {c}, CurrentItinerary(db))
    ensures c in db.calls && db.calls[c].task == id && db.calls[c].status == CallSucceeded
  {
    id :| id in PlanCompose(db, turn, ctx).tasks;
    c := PlanIsBuild(db, turn, id);
  }

  lemma SingletonRows<T(!new)>(rows: seq<T>, x: T)
    requires Enumerates(rows, {x})
    ensures rows == [x]
  {
    assert x in rows;
    assert rows[0] in rows && rows[|rows| - 1] in rows;
  }

  // ---------- The two appended events ----------

  /** What the transaction writes: a new confirmed version and the reply turn, with one event each. */
  ghost predicate ReplyStep(
    db: SessionDb, d: SessionDb, db': SessionDb, turn: TurnId, id: TaskId, c: CallId,
    reply: TurnId, context: ReplyContext, r1: EventRow, r2: EventRow)
  {
    var v := ViewOf(db);
    var n := |v.chain|;
    && id in db.tasks && db.tasks[id].turn == Some(turn) && db.tasks[id].ctx == Some(db.ctx)
    && db.tasks[id].status == Succeeded
    && c in db.calls && db.calls[c].task == id && db.calls[c].status == CallSucceeded
    && !KeyTaken(db.outbox, KeyReply(turn, db.ctx)) && !KeyTaken(db.outbox, KeyItinerary(turn, db.ctx))
    && reply !in db.turns
    && context.ctx == db.ctx && context.pref == v.pref && context.itinerary == n + 1
    && context.sourceTasks == [id] && context.sourceCalls == [c] && ContextOk(context, db.preferences, db.calls)
    && r1 == EventRow(db.lastSeq + 1, ItineraryConfirmed(n + 1, db.ctx, v.pref, [id], [c]), KeyItinerary(turn, db.ctx))
    && r2 == EventRow(db.lastSeq + 2, ReplyCreated(reply, turn, db.ctx, context), KeyReply(turn, db.ctx))
    && d == db.(itineraries := d.itineraries, lastSeq := db.lastSeq + 1, outbox := db.outbox + [r1])
    && v.pref in db.preferences
    && d.itineraries == Supersede(db.itineraries, ConfirmedItinerary(db))
         [n + 1 := Itinerary(Confirmed, db.ctx, v.pref,
                             ItineraryContent(Destination(db.preferences[v.pref].payload, CURRENT_DESTINATION),
                                              db.ctx, db.calls, [c]), [id])]
    && reply in db'.turns
    && db' == d.(turns := db.turns[reply := db'.turns[reply]], lastSeq := d.lastSeq + 1, outbox := d.outbox + [r2])
    && db'.turns[reply] == Turn(|v.order| + 1, AgentReply, Completed, db.ctx, Some(turn), "", Some(context), None)
  }

  lemma ConfirmLog(
    db: SessionDb, d: SessionDb, db': SessionDb, turn: TurnId, id: TaskId, c: CallId,
    reply: TurnId, context: ReplyContext, r1: EventRow, r2: EventRow)
    requires Inv(db) && ReplyStep(db, d, db', turn, id, c, reply, context, r1, r2)
    ensures Holds(Log, d) && Holds(TaskKeys, d)
    ensures ViewOf(d) == Apply(ViewOf(db), r1.body)
    ensures IsUser(ViewOf(db), turn) && ViewOf(db).turns[turn].ctx == db.ctx && ViewOf(d).batch == Replying(turn)
  {
    LogAspects(db);
    TaskMatchesView(db, id);
    OneSource(db, turn, id, id);
    ConfirmedIsLatest(db);
    ActiveIsLatest(db);
    assert IsSource(ViewOf(db), id, turn);
    AppendLog(db, d, r1);
  }

  lemma ReplyLog(
    db: SessionDb, d: SessionDb, db': SessionDb, turn: TurnId, id: TaskId, c: CallId,
    reply: TurnId, context: ReplyContext, r1: EventRow, r2: EventRow)
    requires Inv(db) && ReplyStep(db, d, db', turn, id, c, reply, context, r1, r2)
    ensures Holds(Log, db') && Holds(TaskKeys, db') && Holds(Counters, db')
    ensures ViewOf(d) == Apply(ViewOf(db), r1.body) && ViewOf(db') == Apply(ViewOf(d), r2.body)
    ensures turn in ViewOf(db).turns && ViewOf(db).turns[turn].ctx == db.ctx && reply !in ViewOf(db).turns
  {
    ConfirmLog(db, d, db', turn, id, c, reply, context, r1, r2);
    ReplyRow(db, d, db', turn, id, c, reply, context, r1, r2);
    AppendLog(d, db', r2);
  }

  /** The confirmed version has opened the batch that the reply closes. */
  lemma ReplyRow(
    db: SessionDb, d: SessionDb, db': SessionDb, turn: TurnId, id: TaskId, c: CallId,
    reply: TurnId, context: ReplyContext, r1: EventRow, r2: EventRow)
    requires Inv(db) && ReplyStep(db, d, db', turn, id, c, reply, context, r1, r2)
    requires ViewOf(d) == Apply(ViewOf(db), r1.body) && ViewOf(d).batch == Replying(turn)
    requires IsUser(ViewOf(db), turn) && ViewOf(db).turns[turn].ctx == db.ctx
    ensures OneMoreRow(d, db', r2) && db'.ctx == Apply(ViewOf(d), r2.body).ctx
    ensures Apply(ViewOf(d), r2.body).batch == Idle && reply !in ViewOf(db).turns
  {
    LogAspects(db);
    assert reply !in ViewOf(db).turns by { assert Holds(Turns, db); }
    KeyTakenAppend(db.outbox, r1);
    ReplyAllowed(ViewOf(db), r1.body, r2.body, turn);
  }

  lemma ReplyAllowed(v: View, e1: EventBody, e2: EventBody, turn: TurnId)
    requires v.pref >= 1 && turn in v.turns && v.turns[turn].ctx == v.ctx
    requires e1.ItineraryConfirmed? && Apply(v, e1).batch == Replying(turn)
    requires e2.ReplyCreated? && e2.parent == turn && e2.turn !in v.turns && e2.ctx == v.ctx
    requires e2.context.ctx == v.ctx && e2.context.pref == v.pref && e2.context.itinerary == |v.chain| + 1
    requires e2.context.sourceTasks == e1.sources && e2.context.sourceCalls == e1.calls
    ensures Allowed(Apply(v, e1), e2) && Apply(Apply(v, e1), e2).batch == Idle && Apply(Apply(v, e1), e2).ctx == v.ctx
  {}

  lemma ReplyKeysTwice(
    outbox: seq<EventRow>, turns: map<TurnId, TurnView>, turns': map<TurnId, TurnView>, turn: TurnId, ctx: nat,
    r1: EventRow, r2: EventRow)
    requires ReplyKeysAgree(outbox, turns) && turn in turns && turns[turn].ctx == ctx
    requires r1.key == KeyItinerary(turn, ctx) && r2.key == KeyReply(turn, ctx)
    requires forall t :: t in turns ==> t in turns' && turns'[t] == turns[t].(replied := turns[t].replied || t == turn)
    requires forall t :: t in turns' && t !in turns ==> !turns'[t].replied
    ensures ReplyKeysAgree(outbox + [r1] + [r2], turns')
  {
    KeyTakenAppend(outbox, r1);
    KeyTakenAppend(outbox + [r1], r2);
  }

  lemma ContentAdded(
    itineraries: map<nat, Itinerary>, chain: seq<Link>, calls: map<CallId, ToolCall>, preferences: map<nat, Preference>,
    row: Itinerary, link: Link)
    requires ContentsOk(itineraries, chain, calls, preferences) && ContentOk(link, row.content, calls, preferences)
    ensures ContentsOk(
      Supersede(itineraries, if chain == [] then None else Some(|chain|))[|chain| + 1 := row], chain + [link],
      calls, preferences)
  {
    var after := Supersede(itineraries, if chain == [] then None else Some(|chain|))[|chain| + 1 := row];
    forall x | x in after
      ensures 1 <= x <= |chain| + 1 && ContentOk((chain + [link])[x - 1], after[x].content, calls, preferences)
    {
      if x == |chain| + 1 {
        assert after[x] == row && (chain + [link])[x - 1] == link;
      } else {
        assert after[x].content == itineraries[x].content && (chain + [link])[x - 1] == chain[x - 1];
        assert ContentOk(chain[x - 1], itineraries[x].content, calls, preferences);
      }
    }
  }

  lemma ReplyTurnAdded(
    turns: map<TurnId, Turn>, views: map<TurnId, TurnView>, turn: TurnId, reply: TurnId, row: Turn, view: TurnView)
    requires TurnsAgree(turns, views) && reply !in turns && turn in views && TurnMatches(row, view)
    ensures TurnsAgree(turns[reply := row], views[turn := views[turn].(replied := true)][reply := view])
  {}

  lemma ReplyItinerary(db: SessionDb, db': SessionDb, row: Itinerary, link: Link)
    requires Inv(db) && ItineraryMatches(row, link, true)
    requires db'.itineraries == Supersede(db.itineraries, ConfirmedItinerary(db))[|ViewOf(db).chain| + 1 := row]
    requires ViewOf(db').chain == ViewOf(db).chain + [link]
    ensures Holds(Itineraries, db')
  {
    ConfirmedIsLatest(db);
    assert Holds(Itineraries, db);
  }

  lemma ReplyContent(db: SessionDb, db': SessionDb, row: Itinerary, link: Link)
    requires Inv(db) && ContentOk(link, row.content, db.calls, db.preferences)
    requires db'.itineraries == Supersede(db.itineraries, ConfirmedItinerary(db))[|ViewOf(db).chain| + 1 := row]
    requires ViewOf(db').chain == ViewOf(db).chain + [link]
    requires db'.calls == db.calls && db'.preferences == db.preferences
    ensures Holds(Contents, db')
  {
    ConfirmedIsLatest(db);
    assert Holds(Contents, db);
    ContentAdded(db.itineraries, ViewOf(db).chain, db.calls, db.preferences, row, link);
  }

  lemma ReplyTables(
    db: SessionDb, d: SessionDb, db': SessionDb, turn: TurnId, id: TaskId, c: CallId,
    reply: TurnId, context: ReplyContext, r1: EventRow, r2: EventRow)
    requires Inv(db) && ReplyStep(db, d, db', turn, id, c, reply, context, r1, r2)
    requires ViewOf(db').chain == ViewOf(db).chain + [Link(db.ctx, ViewOf(db).pref, [id], [c])]
    ensures Holds(Itineraries, db') && Holds(Contents, db')
  {
    var link := Link(db.ctx, ViewOf(db).pref, [id], [c]);
    var row := d.itineraries[|ViewOf(db).chain| + 1];
    ReplyItinerary(db, db', row, link);
    ReplyContent(db, db', row, link);
  }

  lemma ReplyKeysStep(
    db: SessionDb, d: SessionDb, db': SessionDb, turn: TurnId, id: TaskId, c: CallId,
    reply: TurnId, context: ReplyContext, r1: EventRow, r2: EventRow)
    requires Holds(ReplyKeys, db) && ReplyStep(db, d, db', turn, id, c, reply, context, r1, r2)
    requires ViewOf(d) == Apply(ViewOf(db), r1.body) && ViewOf(db') == Apply(ViewOf(d), r2.body)
    requires turn in ViewOf(db).turns && ViewOf(db).turns[turn].ctx == db.ctx && reply !in ViewOf(db).turns
    ensures Holds(ReplyKeys, db')
  {
    ReplyMarksParent(ViewOf(db), r1.body, r2.body, turn, reply);
    ReplyKeysTwice(db.outbox, ViewOf(db).turns, ViewOf(db').turns, turn, db.ctx, r1, r2);
  }

  /** The two events mark the parent as replied to, add the reply, and leave every other turn as it was. */
  lemma ReplyMarksParent(v: View, e1: EventBody, e2: EventBody, turn: TurnId, reply: TurnId)
    requires e1.ItineraryConfirmed? && e2.ReplyCreated? && e2.parent == turn && e2.turn == reply
    requires turn in v.turns && reply !in v.turns
    ensures var turns' := Apply(Apply(v, e1), e2).turns;
            && (forall t :: t in v.turns ==>
                  t in turns' && turns'[t] == v.turns[t].(replied := v.turns[t].replied || t == turn))
            && (forall t :: t in turns' && t !in v.turns ==> !turns'[t].replied)
  {}

  lemma RepliesStep(
    db: SessionDb, d: SessionDb, db': SessionDb, turn: TurnId, id: TaskId, c: CallId,
    reply: TurnId, context: ReplyContext, r1: EventRow, r2: EventRow)
    requires Holds(Replies, db) && ReplyStep(db, d, db', turn, id, c, reply, context, r1, r2)
    ensures Holds(Replies, db')
  {
    RepliesAppend(db.outbox, r1, db.turns, db.turns, db.preferences, db.preferences, db.calls, db.calls);
    RepliesAppend(db.outbox + [r1], r2, db.turns, db'.turns, db.preferences, db.preferences, db.calls, db.calls);
  }

  lemma ReplyAspect(
    a: Aspect, db: SessionDb, d: SessionDb, db': SessionDb, turn: TurnId, id: TaskId, c: CallId,
    reply: TurnId, context: ReplyContext, r1: EventRow, r2: EventRow)
    requires Inv(db) && ReplyStep(db, d, db', turn, id, c, reply, context, r1, r2)
    ensures Holds(a, db')
  {
    ReplyLog(db, d, db', turn, id, c, reply, context, r1, r2);
    match a
    case ReplyKeys => ReplyKeysStep(db, d, db', turn, id, c, reply, context, r1, r2);
    case Replies => RepliesStep(db, d, db', turn, id, c, reply, context, r1, r2);
    case Itineraries => ReplyTables(db, d, db', turn, id, c, reply, context, r1, r2);
    case Contents => ReplyTables(db, d, db', turn, id, c, reply, context, r1, r2);
    case Turns => ReplyTurns(db, d, db', turn, id, c, reply, context, r1, r2);
    case TaskRows => ReplyTaskRows(db, d, db', turn, id, c, reply, context, r1, r2);
    case Preferences => ReplyFrame(a, db, d, db', r1.body, r2.body);
    case Tasks => ReplyFrame(a, db, d, db', r1.body, r2.body);
    case Calls => ReplyFrame(a, db, d, db', r1.body, r2.body);
    case _ =>
  }

  /** Preferences, tasks and tool calls are left alone. */
  lemma ReplyFrame(a: Aspect, db: SessionDb, d: SessionDb, db': SessionDb, e1: EventBody, e2: EventBody)
    requires Holds(a, db) && a in {Preferences, Tasks, Calls}
    requires db'.preferences == db.preferences && db'.tasks == db.tasks && db'.calls == db.calls
    requires e1.ItineraryConfirmed? && e2.ReplyCreated?
    requires ViewOf(d) == Apply(ViewOf(db), e1) && ViewOf(db') == Apply(ViewOf(d), e2)
    ensures Holds(a, db')
  {
    Frame(a, db, db');
  }

  lemma ReplyTurns(
    db: SessionDb, d: SessionDb, db': SessionDb, turn: TurnId, id: TaskId, c: CallId,
    reply: TurnId, context: ReplyContext, r1: EventRow, r2: EventRow)
    requires Holds(Turns, db) && ReplyStep(db, d, db', turn, id, c, reply, context, r1, r2)
    requires ViewOf(d) == Apply(ViewOf(db), r1.body) && ViewOf(db') == Apply(ViewOf(d), r2.body)
    requires turn in ViewOf(db).turns
    ensures Holds(Turns, db')
  {
    ReplyTurnAdded(db.turns, ViewOf(db).turns, turn, reply, db'.turns[reply], ViewOf(db').turns[reply]);
  }

  lemma ReplyTaskRows(
    db: SessionDb, d: SessionDb, db': SessionDb, turn: TurnId, id: TaskId, c: CallId,
    reply: TurnId, context: ReplyContext, r1: EventRow, r2: EventRow)
    requires Holds(TaskRows, db) && ReplyStep(db, d, db', turn, id, c, reply, context, r1, r2)
    ensures Holds(TaskRows, db')
  {
    TaskRowsFrame(db.tasks, db.turns, db.preferences, db'.turns, db'.preferences);
  }

  /** In a reachable state a compose never meets a conflicting itinerary. */
  lemma NeverConflicts(db: SessionDb, turn: TurnId, ctx: nat, reply: TurnId, taskRows: seq<TaskId>, callRows: seq<CallId>)
    requires Inv(db) && ComposeRows(PlanCompose(db, turn, ctx), taskRows, callRows)
    ensures var r := ComposeReply(db, turn, ctx, reply, taskRows, callRows); r.Commit? ==> r.value != ItineraryConflict
  {
    if PlanCompose(db, turn, ctx).Build? {
      var id, c := BuildShape(db, turn, ctx);
    }
  }

  /** When its plan is to build from `id` and `c`, the transaction commits what `ConfirmAndReply` writes. */
  lemma ComposeIsConfirm(db: SessionDb, turn: TurnId, ctx: nat, reply: TurnId, id: TaskId, c: CallId)
    requires Inv(db) && c in db.calls && ViewOf(db).pref in db.preferences
    requires PlanCompose(db, turn, ctx) == Build(ViewOf(db).pref, {id}, {c}, CurrentItinerary(db))
    requires ComposeReply(db, turn, ctx, reply, [id], [c]).Commit?
    ensures ComposeReply(db, turn, ctx, reply, [id], [c])
            == ConfirmAndReply(db, turn, ctx, reply, ViewOf(db).pref, |ViewOf(db).chain|, [id], [c])
    ensures reply !in db.turns && !KeyTaken(db.outbox, KeyItinerary(turn, ctx))
  {
    ConfirmedIsLatest(db);
  }

  lemma ComposeShape(db: SessionDb, turn: TurnId, ctx: nat, reply: TurnId, id: TaskId, c: CallId, db': SessionDb)
    returns (d: SessionDb, context: ReplyContext, r1: EventRow, r2: EventRow)
    requires Inv(db) && id in db.tasks && db.tasks[id].status == Succeeded
    requires db.tasks[id].turn == Some(turn) && db.tasks[id].ctx == Some(ctx) && ctx == db.ctx
    requires c in db.calls && db.calls[c].task == id && db.calls[c].status == CallSucceeded
    requires !KeyTaken(db.outbox, KeyReply(turn, ctx)) && !KeyTaken(db.outbox, KeyItinerary(turn, ctx))
    requires reply !in db.turns && ViewOf(db).pref in db.preferences && db.calls[c].output.Some?
    requires db' == ConfirmAndReply(db, turn, ctx, reply, ViewOf(db).pref, |ViewOf(db).chain|, [id], [c]).db
    ensures ReplyStep(db, d, db', turn, id, c, reply, context, r1, r2)
  {
    SequencesAreGapFree(db);
    var v := ViewOf(db);
    context := db'.turns[reply].reply.value;
    r1 := EventRow(db.lastSeq + 1, ItineraryConfirmed(|v.chain| + 1, ctx, v.pref, [id], [c]), KeyItinerary(turn, ctx));
    r2 := EventRow(db.lastSeq + 2, ReplyCreated(reply, turn, ctx, context), KeyReply(turn, ctx));
    d := db.(itineraries := db'.itineraries, lastSeq := db.lastSeq + 1, outbox := db.outbox + [r1]);
    assert db'.outbox == d.outbox + [r2];
  }

  lemma ComposeReplyKeeps(
    db: SessionDb, turn: TurnId, ctx: nat, reply: TurnId, taskRows: seq<TaskId>, callRows: seq<CallId>)
    requires Inv(db) && ComposeRows(PlanCompose(db, turn, ctx), taskRows, callRows)
    requires ComposeReply(db, turn, ctx, reply, taskRows, callRows).Commit?
    ensures Inv(ComposeReply(db, turn, ctx, reply, taskRows, callRows).db)
  {
    if PlanCompose(db, turn, ctx).Build? {
      var id, c := BuildShape(db, turn, ctx);
      SingletonRows(taskRows, id);
      SingletonRows(callRows, c);
      ActiveIsLatest(db);
      ComposeIsConfirm(db, turn, ctx, reply, id, c);
      var db' := ComposeReply(db, turn, ctx, reply, [id], [c]).db;
      TaskMatchesView(db, id);
      assert CallOk(db.tasks, db.calls[c]);
      var d, context, r1, r2 := ComposeShape(db, turn, ctx, reply, id, c, db');
      forall a ensures Holds(a, db') {
        ReplyAspect(a, db, d, db', turn, id, c, reply, context, r1, r2);
      }
    }
  }
}
