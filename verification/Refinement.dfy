/** The tables are the fold of a legal event log, and every transaction keeps them so. */
module Refinement {
  import opened Rows
  import opened Transactions
  import opened History

  function Bodies(outbox: seq<EventRow>): (r: seq<EventBody>)
    ensures |r| == |outbox|
  {
    seq(|outbox|, i requires 0 <= i < |outbox| => outbox[i].body)
  }

  function ViewOf(db: SessionDb): View {
    Fold(Bodies(db.outbox))
  }

  // ---------- Table by table ----------

  /** Sequence numbers are exactly 1..lastSeq. */
  ghost predicate SeqsOk(outbox: seq<EventRow>, lastSeq: nat) {
    lastSeq == |outbox| && forall k :: 0 <= k < |outbox| ==> outbox[k].seqNo == k + 1
  }

  /** Preference versions are exactly 1..n, and only n is active. */
  ghost predicate PreferencesAgree(preferences: map<nat, Preference>, n: nat) {
    && (forall x :: x in preferences <==> 1 <= x <= n)
    && (forall x :: x in preferences ==> (preferences[x].status == Active <==> x == n))
  }

  /** Itinerary versions are exactly 1..n, and only n is confirmed. */
  ghost predicate ItinerariesAgree(itineraries: map<nat, Itinerary>, chain: seq<Link>) {
    && (forall x :: x in itineraries <==> 1 <= x <= |chain|)
    && (forall x :: x in itineraries ==> ItineraryMatches(itineraries[x], chain[x - 1], x == |chain|))
  }

  predicate ItineraryMatches(row: Itinerary, link: Link, last: bool) {
    (row.status == Confirmed <==> last) && row.ctx == link.ctx && row.pref == link.pref && row.sources == link.sources
  }

  predicate TurnMatches(row: Turn, turn: TurnView) {
    && row.sequenceNo == turn.seqNo && row.kind == turn.kind && row.ctx == turn.ctx && row.parent == turn.parent
    && (row.status == Interrupted <==> turn.interrupted)
    && (row.reply.Some? <==> row.kind == AgentReply)
  }

  ghost predicate TurnsAgree(turns: map<TurnId, Turn>, views: map<TurnId, TurnView>) {
    turns.Keys == views.Keys && forall t :: t in turns ==> TurnMatches(turns[t], views[t])
  }

  predicate TaskMatches(row: Task, task: TaskView) {
    && row.turn == Some(task.turn) && row.ctx == Some(task.ctx) && row.pref == Some(task.pref)
    && row.itin == Some(task.itin) && row.status == task.status
  }

  ghost predicate TasksAgree(tasks: map<TaskId, Task>, views: map<TaskId, TaskView>) {
    tasks.Keys == views.Keys && forall id :: id in tasks ==> TaskMatches(tasks[id], views[id])
  }

  /** A task row is what its packet planned, and it is claimed at most once. */
  ghost predicate TaskRowOk(task: Task, turns: map<TurnId, Turn>, preferences: map<nat, Preference>) {
    && task.turn.Some? && task.ctx.Some? && task.pref.Some? && task.itin.Some?
    && task.turn.value in turns && task.pref.value in preferences
    && task.taskType == MockTravel
    && task.input == PlannedInput(preferences[task.pref.value].payload, turns[task.turn.value].text)
    && task.key == Some(IdempotencyKey(task.ctx.value, task.itin.value, MockTravel, task.input))
    && task.attempt <= 1
    && (task.status == Queued ==> task.attempt == 0)
    && (task.status in {Running, Succeeded, Failed, Discarded} ==> task.attempt == 1)
    && (task.result.Some? <==> task.status in {Succeeded, Discarded})
  }

  ghost predicate TaskRowsOk(tasks: map<TaskId, Task>, turns: map<TurnId, Turn>, preferences: map<nat, Preference>) {
    forall id :: id in tasks ==> TaskRowOk(tasks[id], turns, preferences)
  }

  /** How a tool call stands, by where its task stands.  The call of a cancelled task is still running when it was a
    redelivered message that cancelled the task. */
  predicate CallFits(call: ToolCall, task: Task) {
    match task.status
    case Queued => false
    case Running => call.status == CallRunning && call.output.None?
    case CancelRequested => call.status == CallRunning && call.output.None?
    case Cancelled => (call.status == CallRunning || call.status == CallCancelled) && call.output.None?
    case Succeeded => call.status == CallSucceeded && call.output.Some? && call.output == task.result
    case Failed => call.status == CallFailed && call.output.None?
    case Discarded => call.status == CallDiscarded && call.output.Some? && call.output == task.result
  }

  predicate CallOk(tasks: map<TaskId, Task>, call: ToolCall) {
    && call.task in tasks
    && tasks[call.task].ctx == Some(call.ctx) && tasks[call.task].pref == Some(call.pref)
    && tasks[call.task].attempt == 1
    && call.tool == tasks[call.task].taskType && call.input == tasks[call.task].input
    && CallFits(call, tasks[call.task])
  }

  ghost predicate HasCall(calls: map<CallId, ToolCall>, id: TaskId) {
    exists c :: c in calls && calls[c].task == id
  }

  /** A task has at most one tool call, on the task's own input and with the task's result, and a succeeded one has one. */
  ghost predicate CallsOk(tasks: map<TaskId, Task>, calls: map<CallId, ToolCall>) {
    && (forall c :: c in calls ==> CallOk(tasks, calls[c]))
    && (forall c, d :: c in calls && d in calls && calls[c].task == calls[d].task ==> c == d)
    && (forall id :: id in tasks && tasks[id].status == Succeeded ==> HasCall(calls, id))
  }

  predicate IsCited(link: Link, calls: map<CallId, ToolCall>, id: TaskId) {
    exists c :: c in link.calls && c in calls && calls[c].task == id
  }

  /** An itinerary version is rebuilt from the tool call its event names, which is that of its only source. */
  ghost predicate ContentOk(
    link: Link, content: Content, calls: map<CallId, ToolCall>, preferences: map<nat, Preference>)
  {
    && |link.sources| == 1 && |link.calls| == 1
    && (forall c :: c in link.calls ==>
          c in calls && calls[c].status == CallSucceeded && calls[c].task in link.sources)
    && (forall id :: id in link.sources ==> IsCited(link, calls, id))
    && link.pref in preferences
    && content == ItineraryContent(
         Destination(preferences[link.pref].payload, CURRENT_DESTINATION), link.ctx, calls, link.calls)
  }

  ghost predicate ContentsOk(
    itineraries: map<nat, Itinerary>, chain: seq<Link>, calls: map<CallId, ToolCall>, preferences: map<nat, Preference>)
  {
    forall x :: x in itineraries ==>
      1 <= x <= |chain| && ContentOk(chain[x - 1], itineraries[x].content, calls, preferences)
  }

  predicate KeyFits(row: EventRow) {
    match row.body
    case SessionCreated(_, _) => row.key == KeySession
    case TurnFinalized(_, _, _) => row.key.KeyTurn?
    case PreferenceUpdated(_, _) => row.key.KeyPreference?
    case InterruptAccepted(_, _, _, _, _) => row.key.KeyInterrupt?
    case TaskQueued(id, _, _, _, _, _) => row.key == KeyTask(id, Queued)
    case TaskMoved(id, to, _, _) => row.key == KeyTask(id, to)
    case ItineraryConfirmed(_, c, _, _, _) => row.key.KeyItinerary? && row.key.ctx == c
    case ReplyCreated(_, parent, c, _) => row.key == KeyReply(parent, c)
  }

  ghost predicate KeysUnique(outbox: seq<EventRow>) {
    && (forall i :: 0 <= i < |outbox| ==> KeyFits(outbox[i]))
    && (forall i, j :: 0 <= i < j < |outbox| ==> outbox[i].key != outbox[j].key)
  }

  /** A lifecycle key tells that its status was reached: the skip in `AppendOnce` never hides a status change. */
  ghost predicate TaskKeysAgree(outbox: seq<EventRow>, tasks: map<TaskId, TaskView>) {
    forall id, s :: KeyTaken(outbox, KeyTask(id, s)) ==> id in tasks && Rank(s) <= Rank(tasks[id].status)
  }

  /** A reply or itinerary key tells that its turn was replied to, and the other way round. */
  ghost predicate ReplyKeysAgree(outbox: seq<EventRow>, turns: map<TurnId, TurnView>) {
    && (forall t, c :: KeyTaken(outbox, KeyItinerary(t, c)) ==> t in turns && turns[t].replied)
    && (forall t, c :: KeyTaken(outbox, KeyReply(t, c)) ==> t in turns && turns[t].replied && turns[t].ctx == c)
    && (forall t :: t in turns && turns[t].replied ==> KeyTaken(outbox, KeyReply(t, turns[t].ctx)))
  }

  /** A reply names the destination of the preference it was composed for, and tells what its tool calls returned. */
  predicate ContextOk(context: ReplyContext, preferences: map<nat, Preference>, calls: map<CallId, ToolCall>) {
    && context.pref in preferences
    && context.message == ReplyMessage(Destination(preferences[context.pref].payload, CURRENT_DESTINATION))
    && |context.results| == |context.sourceCalls|
    && forall i :: 0 <= i < |context.sourceCalls| ==> Returned(calls, context.sourceCalls[i], context.results[i])
  }

  predicate Returned(calls: map<CallId, ToolCall>, c: CallId, output: ToolOutput) {
    c in calls && calls[c].status == CallSucceeded && calls[c].output == Some(output)
  }

  /** Succeeded tool calls are never touched again. */
  predicate CallsKept(calls: map<CallId, ToolCall>, calls': map<CallId, ToolCall>) {
    forall c :: c in calls && calls[c].status == CallSucceeded ==> c in calls' && calls'[c] == calls[c]
  }

  ghost predicate RepliesOk(
    outbox: seq<EventRow>, turns: map<TurnId, Turn>, preferences: map<nat, Preference>, calls: map<CallId, ToolCall>)
  {
    forall i :: 0 <= i < |outbox| && outbox[i].body.ReplyCreated? ==>
      && outbox[i].body.turn in turns && turns[outbox[i].body.turn].reply == Some(outbox[i].body.context)
      && ContextOk(outbox[i].body.context, preferences, calls)
  }

  /** The invariant, aspect by aspect: a proof looks only at the aspects it names. */
  datatype Aspect =
    | Log | Counters | Preferences | Itineraries | Turns | Tasks | TaskRows | Calls | Contents | TaskKeys | ReplyKeys | Replies

  ghost predicate Holds(a: Aspect, db: SessionDb) {
    var v := ViewOf(db);
    match a
    case Log => Legal(Bodies(db.outbox)) && SeqsOk(db.outbox, db.lastSeq) && KeysUnique(db.outbox)
    case Counters => db.ctx == v.ctx && v.batch == Idle && v.pref >= 1
    case Preferences => PreferencesAgree(db.preferences, v.pref)
    case Itineraries => ItinerariesAgree(db.itineraries, v.chain)
    case Turns => TurnsAgree(db.turns, v.turns)
    case Tasks => TasksAgree(db.tasks, v.tasks)
    case TaskRows => TaskRowsOk(db.tasks, db.turns, db.preferences)
    case Calls => CallsOk(db.tasks, db.calls)
    case Contents => ContentsOk(db.itineraries, v.chain, db.calls, db.preferences)
    case TaskKeys => TaskKeysAgree(db.outbox, v.tasks)
    case ReplyKeys => ReplyKeysAgree(db.outbox, v.turns)
    case Replies => RepliesOk(db.outbox, db.turns, db.preferences, db.calls)
  }

  /** In every reachable state the event log is legal and the tables are its fold. */
  ghost predicate Inv(db: SessionDb) {
    forall a :: Holds(a, db)
  }

  /** `db'` differs from `db` in nothing the aspect looks at. */
  ghost predicate SameFor(a: Aspect, db: SessionDb, db': SessionDb) {
    var v, v' := ViewOf(db), ViewOf(db');
    match a
    case Preferences => db'.preferences == db.preferences && v'.pref == v.pref
    case Itineraries => db'.itineraries == db.itineraries && v'.chain == v.chain
    case Turns => db'.turns == db.turns && v'.turns == v.turns
    case Tasks => db'.tasks == db.tasks && v'.tasks == v.tasks
    case TaskRows => db'.tasks == db.tasks && db'.turns == db.turns && db'.preferences == db.preferences
    case Calls => db'.tasks == db.tasks && db'.calls == db.calls
    case Contents =>
      && db'.itineraries == db.itineraries && v'.chain == v.chain
      && db'.calls == db.calls && db'.preferences == db.preferences
    case _ => false
  }

  lemma Frame(a: Aspect, db: SessionDb, db': SessionDb)
    requires Holds(a, db) && SameFor(a, db, db')
    ensures Holds(a, db')
  {}

  // ---------- Reading the invariant ----------

  lemma InvIsSound(db: SessionDb)
    requires Inv(db)
    ensures Sound(ViewOf(db))
  {
    assert Holds(Log, db);
    LegalIsSound(Bodies(db.outbox));
  }

  lemma ActiveIsLatest(db: SessionDb)
    requires Inv(db)
    ensures ActivePreference(db) == Some(ViewOf(db).pref)
  {
    assert Holds(Preferences, db) && Holds(Counters, db);
    assert IsActive(db, ViewOf(db).pref);
  }

  lemma ConfirmedIsLatest(db: SessionDb)
    requires Inv(db)
    ensures CurrentItinerary(db) == |ViewOf(db).chain|
    ensures ConfirmedItinerary(db) == if ViewOf(db).chain == [] then None else Some(|ViewOf(db).chain|)
  {
    assert Holds(Itineraries, db);
    if ViewOf(db).chain != [] {
      assert IsConfirmed(db, |ViewOf(db).chain|);
    }
  }

  lemma SequencesAreGapFree(db: SessionDb)
    requires Inv(db)
    ensures MaxSequence(db.turns) == |ViewOf(db).order|
  {
    assert Holds(Turns, db);
    InvIsSound(db);
    var v := ViewOf(db);
    if v.order != [] {
      assert v.order[|v.order| - 1] in db.turns;
    }
  }

  // ---------- Appending rows ----------

  lemma ViewAppend(outbox: seq<EventRow>, row: EventRow)
    ensures Bodies(outbox + [row]) == Bodies(outbox) + [row.body]
    ensures Fold(Bodies(outbox + [row])) == Apply(Fold(Bodies(outbox)), row.body)
    ensures Legal(Bodies(outbox + [row])) <==> Legal(Bodies(outbox)) && Allowed(Fold(Bodies(outbox)), row.body)
  {
    assert Bodies(outbox + [row]) == Bodies(outbox) + [row.body];
  }

  lemma KeyTakenAppend(outbox: seq<EventRow>, row: EventRow)
    ensures forall key :: KeyTaken(outbox + [row], key) <==> KeyTaken(outbox, key) || row.key == key
  {
    forall key ensures KeyTaken(outbox + [row], key) <==> KeyTaken(outbox, key) || row.key == key {
      if KeyTaken(outbox, key) {
        var i :| 0 <= i < |outbox| && outbox[i].key == key;
        assert (outbox + [row])[i].key == key;
      }
      if row.key == key {
        assert (outbox + [row])[|outbox|].key == key;
      }
    }
  }

  lemma RanksRise(v: View, e: EventBody)
    requires v.pref >= 1 && Allowed(v, e)
    ensures forall id :: id in v.tasks ==>
              id in Apply(v, e).tasks && Rank(v.tasks[id].status) <= Rank(Apply(v, e).tasks[id].status)
    ensures e.TaskMoved? ==> Rank(v.tasks[e.task].status) < Rank(e.to)
  {}

  lemma TaskKeysAppend(outbox: seq<EventRow>, v: View, row: EventRow)
    requires TaskKeysAgree(outbox, v.tasks) && v.pref >= 1 && Allowed(v, row.body) && KeyFits(row)
    ensures TaskKeysAgree(outbox + [row], Apply(v, row.body).tasks)
  {
    KeyTakenAppend(outbox, row);
    RanksRise(v, row.body);
  }

  lemma ReplyKeysAppend(outbox: seq<EventRow>, v: View, row: EventRow)
    requires ReplyKeysAgree(outbox, v.turns) && v.pref >= 1 && Allowed(v, row.body) && KeyFits(row)
    requires !row.body.ItineraryConfirmed? && !row.body.ReplyCreated?
    ensures ReplyKeysAgree(outbox + [row], Apply(v, row.body).turns)
  {
    KeyTakenAppend(outbox, row);
  }

  lemma ContextKept(
    context: ReplyContext, preferences: map<nat, Preference>, preferences': map<nat, Preference>,
    calls: map<CallId, ToolCall>, calls': map<CallId, ToolCall>)
    requires ContextOk(context, preferences, calls)
    requires PayloadsPersist(preferences, preferences') && CallsKept(calls, calls')
    ensures ContextOk(context, preferences', calls')
  {
    forall i | 0 <= i < |context.sourceCalls| ensures Returned(calls', context.sourceCalls[i], context.results[i]) {
      assert Returned(calls, context.sourceCalls[i], context.results[i]);
    }
  }

  lemma RepliesAppend(
    outbox: seq<EventRow>, row: EventRow, turns: map<TurnId, Turn>, turns': map<TurnId, Turn>,
    preferences: map<nat, Preference>, preferences': map<nat, Preference>,
    calls: map<CallId, ToolCall>, calls': map<CallId, ToolCall>)
    requires RepliesOk(outbox, turns, preferences, calls)
    requires RepliesPersist(turns, turns') && PayloadsPersist(preferences, preferences') && CallsKept(calls, calls')
    requires row.body.ReplyCreated? ==>
               && row.body.turn in turns' && turns'[row.body.turn].reply == Some(row.body.context)
               && ContextOk(row.body.context, preferences', calls')
    ensures RepliesOk(outbox + [row], turns', preferences', calls')
  {
    forall i | 0 <= i < |outbox| && outbox[i].body.ReplyCreated?
      ensures ContextOk(outbox[i].body.context, preferences', calls')
    {
      ContextKept(outbox[i].body.context, preferences, preferences', calls, calls');
    }
  }

  predicate RepliesPersist(turns: map<TurnId, Turn>, turns': map<TurnId, Turn>) {
    forall t :: t in turns ==> t in turns' && turns'[t].reply == turns[t].reply
  }

  predicate PayloadsPersist(preferences: map<nat, Preference>, preferences': map<nat, Preference>) {
    forall x :: x in preferences ==> x in preferences' && preferences'[x].payload == preferences[x].payload
  }

  /** `db'` has one more outbox row: an allowed event under a new key. */
  ghost predicate OneMoreRow(db: SessionDb, db': SessionDb, row: EventRow) {
    && db'.outbox == db.outbox + [row] && db'.lastSeq == db.lastSeq + 1 && row.seqNo == db.lastSeq + 1
    && ViewOf(db).pref >= 1 && Allowed(ViewOf(db), row.body) && KeyFits(row) && !KeyTaken(db.outbox, row.key)
  }

  lemma AppendLog(db: SessionDb, db': SessionDb, row: EventRow)
    requires Holds(Log, db) && Holds(TaskKeys, db) && OneMoreRow(db, db', row)
    ensures ViewOf(db') == Apply(ViewOf(db), row.body)
    ensures Holds(Log, db') && Holds(TaskKeys, db')
  {
    ViewAppend(db.outbox, row);
    TaskKeysAppend(db.outbox, ViewOf(db), row);
  }

  /** An event that is neither an itinerary nor a reply keeps everything that is about the log. */
  lemma AppendRow(db: SessionDb, db': SessionDb, row: EventRow)
    requires Holds(Log, db) && Holds(TaskKeys, db) && Holds(ReplyKeys, db) && Holds(Replies, db)
    requires OneMoreRow(db, db', row) && !row.body.ItineraryConfirmed? && !row.body.ReplyCreated?
    requires RepliesPersist(db.turns, db'.turns)
    requires PayloadsPersist(db.preferences, db'.preferences) && CallsKept(db.calls, db'.calls)
    ensures ViewOf(db') == Apply(ViewOf(db), row.body)
    ensures Holds(Log, db') && Holds(TaskKeys, db') && Holds(ReplyKeys, db') && Holds(Replies, db')
  {
    AppendLog(db, db', row);
    ReplyKeysAppend(db.outbox, ViewOf(db), row);
    RepliesAppend(db.outbox, row, db.turns, db'.turns, db.preferences, db'.preferences, db.calls, db'.calls);
  }

  lemma LogAspects(db: SessionDb)
    requires Inv(db)
    ensures Holds(Log, db) && Holds(TaskKeys, db) && Holds(ReplyKeys, db) && Holds(Replies, db)
    ensures db.ctx == ViewOf(db).ctx && ViewOf(db).batch == Idle && ViewOf(db).pref >= 1
  {
    assert Holds(Counters, db);
  }

  // ---------- Turns and preferences ----------

  lemma TaskRowsFrame(
    tasks: map<TaskId, Task>, turns: map<TurnId, Turn>, preferences: map<nat, Preference>,
    turns': map<TurnId, Turn>, preferences': map<nat, Preference>)
    requires TaskRowsOk(tasks, turns, preferences)
    requires forall t :: t in turns ==> t in turns' && turns'[t].text == turns[t].text
    requires PayloadsPersist(preferences, preferences')
    ensures TaskRowsOk(tasks, turns', preferences')
  {
    forall id | id in tasks ensures TaskRowOk(tasks[id], turns', preferences') {
      assert TaskRowOk(tasks[id], turns, preferences);
    }
  }

  ghost predicate NewTurnStep(db: SessionDb, db': SessionDb, id: TurnId, turn: Turn, row: EventRow) {
    && db' == db.(ctx := db.ctx + 1, turns := db.turns[id := turn], lastSeq := db.lastSeq + 1,
                  outbox := db.outbox + [row])
    && row.seqNo == db.lastSeq + 1 && row.body == TurnFinalized(id, db.ctx + 1, ViewOf(db).pref)
    && row.key.KeyTurn? && !KeyTaken(db.outbox, row.key) && id !in db.turns
    && TurnMatches(turn, TurnView(|ViewOf(db).order| + 1, UserText, db.ctx + 1, ViewOf(db).pref, 0, None, false, false))
  }

  lemma NewTurnLog(db: SessionDb, db': SessionDb, id: TurnId, turn: Turn, row: EventRow)
    requires Inv(db) && NewTurnStep(db, db', id, turn, row)
    ensures ViewOf(db') == Apply(ViewOf(db), row.body)
    ensures Holds(Log, db') && Holds(TaskKeys, db') && Holds(ReplyKeys, db') && Holds(Replies, db') && Holds(Counters, db')
  {
    LogAspects(db);
    assert Holds(Turns, db);
    AppendRow(db, db', row);
  }

  lemma NewTurnTurns(db: SessionDb, db': SessionDb, id: TurnId, turn: Turn, row: EventRow)
    requires Holds(Turns, db) && NewTurnStep(db, db', id, turn, row) && ViewOf(db') == Apply(ViewOf(db), row.body)
    ensures Holds(Turns, db')
  {}

  lemma NewTurnTaskRows(db: SessionDb, db': SessionDb, id: TurnId, turn: Turn, row: EventRow)
    requires Holds(TaskRows, db) && NewTurnStep(db, db', id, turn, row)
    ensures Holds(TaskRows, db')
  {
    TaskRowsFrame(db.tasks, db.turns, db.preferences, db'.turns, db'.preferences);
  }

  lemma NewTurnAspect(a: Aspect, db: SessionDb, db': SessionDb, id: TurnId, turn: Turn, row: EventRow)
    requires Inv(db) && NewTurnStep(db, db', id, turn, row)
    ensures Holds(a, db')
  {
    NewTurnLog(db, db', id, turn, row);
    match a
    case Turns => NewTurnTurns(db, db', id, turn, row);
    case TaskRows => NewTurnTaskRows(db, db', id, turn, row);
    case Preferences => Frame(a, db, db');
    case Itineraries => Frame(a, db, db');
    case Tasks => Frame(a, db, db');
    case Calls => Frame(a, db, db');
    case Contents => Frame(a, db, db');
    case _ =>
  }

  lemma FinalizeTurnKeeps(db: SessionDb, id: TurnId, text: string, clientEvent: string)
    requires Inv(db) && FinalizeTurn(db, id, text, clientEvent).Commit?
    ensures Inv(FinalizeTurn(db, id, text, clientEvent).db)
  {
    var db' := FinalizeTurn(db, id, text, clientEvent).db;
    ActiveIsLatest(db);
    SequencesAreGapFree(db);
    assert Holds(Counters, db);
    var row := EventRow(db.lastSeq + 1, TurnFinalized(id, db.ctx + 1, ViewOf(db).pref), KeyTurn(clientEvent));
    forall a ensures Holds(a, db') {
      NewTurnAspect(a, db, db', id, db'.turns[id], row);
    }
  }

  lemma PreferenceAdded(preferences: map<nat, Preference>, n: nat, old': Preference, new': Preference)
    requires PreferencesAgree(preferences, n) && n >= 1
    requires old' == preferences[n].(status := Superseded) && new'.status == Active
    ensures PreferencesAgree(preferences[n := old'][n + 1 := new'], n + 1)
  {}

  ghost predicate NewPreferenceStep(db: SessionDb, db': SessionDb, row: EventRow) {
    && db' == db.(ctx := db.ctx + 1, preferences := db'.preferences, lastSeq := db.lastSeq + 1,
                  outbox := db.outbox + [row])
    && PreferencesAgree(db'.preferences, ViewOf(db).pref + 1) && PayloadsPersist(db.preferences, db'.preferences)
    && row.seqNo == db.lastSeq + 1 && row.body == PreferenceUpdated(db.ctx + 1, ViewOf(db).pref + 1)
    && row.key.KeyPreference? && !KeyTaken(db.outbox, row.key)
  }

  lemma NewPreferenceLog(db: SessionDb, db': SessionDb, row: EventRow)
    requires Inv(db) && NewPreferenceStep(db, db', row)
    ensures ViewOf(db') == Apply(ViewOf(db), row.body)
    ensures Holds(Log, db') && Holds(TaskKeys, db') && Holds(ReplyKeys, db') && Holds(Replies, db')
    ensures Holds(Counters, db') && Holds(Preferences, db')
  {
    LogAspects(db);
    AppendRow(db, db', row);
  }

  lemma NewPreferenceRows(db: SessionDb, db': SessionDb, row: EventRow)
    requires Holds(TaskRows, db) && Holds(Contents, db) && NewPreferenceStep(db, db', row)
    requires ViewOf(db') == Apply(ViewOf(db), row.body)
    ensures Holds(TaskRows, db') && Holds(Contents, db')
  {
    TaskRowsFrame(db.tasks, db.turns, db.preferences, db'.turns, db'.preferences);
  }

  lemma NewPreferenceAspect(a: Aspect, db: SessionDb, db': SessionDb, row: EventRow)
    requires Inv(db) && NewPreferenceStep(db, db', row)
    ensures Holds(a, db')
  {
    NewPreferenceLog(db, db', row);
    match a
    case TaskRows => NewPreferenceRows(db, db', row);
    case Contents => NewPreferenceRows(db, db', row);
    case Itineraries => Frame(a, db, db');
    case Turns => Frame(a, db, db');
    case Tasks => Frame(a, db, db');
    case Calls => Frame(a, db, db');
    case _ =>
  }

  lemma UpdatePreferenceKeeps(
    db: SessionDb, baseCtx: nat, patch: Payload, sourceTurn: Option<TurnId>, clientEvent: string)
    requires Inv(db) && UpdatePreference(db, baseCtx, patch, sourceTurn, clientEvent).Commit?
    ensures Inv(UpdatePreference(db, baseCtx, patch, sourceTurn, clientEvent).db)
  {
    var r := UpdatePreference(db, baseCtx, patch, sourceTurn, clientEvent);
    if r.value.Some? {
      var n := ViewOf(db).pref;
      ActiveIsLatest(db);
      assert Holds(Counters, db) && Holds(Preferences, db);
      PreferenceAdded(db.preferences, n, r.db.preferences[n], r.db.preferences[n + 1]);
      var row := EventRow(db.lastSeq + 1, PreferenceUpdated(db.ctx + 1, n + 1), KeyPreference(clientEvent));
      forall a ensures Holds(a, r.db) {
        NewPreferenceAspect(a, db, r.db, row);
      }
    }
  }
}
