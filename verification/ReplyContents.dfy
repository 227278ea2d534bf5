/** What tasks, itineraries and replies say: the destination a preference names, and what the tool returned. */
module ReplyContents {
  import opened Rows
  import opened Transactions
  import opened History
  import opened Refinement
  import opened TaskSteps
  import opened Runs
  import opened LogTheorems
  import opened Theorems
  import opened ReplyTheorems

  /** A task asks for the destination of the preference version it was planned on, and for what its turn says. */
  lemma TaskAsksForItsPreference(w: World, id: TaskId)
    requires Reachable(w) && id in w.db.tasks
    ensures var task := w.db.tasks[id];
            && task.turn.Some? && task.turn.value in w.db.turns && task.pref.Some? && task.pref.value in w.db.preferences
            && task.input.TravelInput? && task.input.query == w.db.turns[task.turn.value].text
            && IsDestination(task.input.destination, w.db.preferences[task.pref.value].payload, "未指定目的地")
  {
    ReachableInv(w);
    TaskMatchesView(w.db, id);
  }

  /** While a reply is being written, the newest version is the one it is about. */
  lemma {:induction false} ReplyingIsAboutLast(log: seq<EventBody>)
    requires Legal(log) && Fold(log).batch.Replying?
    ensures Fold(log).chain != []
    ensures var v := Fold(log); v.chain[|v.chain| - 1].ctx == v.ctx && v.chain[|v.chain| - 1].pref == v.pref
  {
    var n := |log| - 1;
    Started(log[..n]);
    assert log[n].ItineraryConfirmed?;
  }

  predicate NamesLink(context: ReplyContext, chain: seq<Link>) {
    && 1 <= context.itinerary <= |chain|
    && chain[context.itinerary - 1] == Link(context.ctx, context.pref, context.sourceTasks, context.sourceCalls)
  }

  lemma ChainExtends(v: View, e: EventBody, context: ReplyContext)
    requires NamesLink(context, v.chain)
    ensures NamesLink(context, Apply(v, e).chain)
  {}

  lemma ReplyNamesLast(v: View, e: EventBody)
    requires v.pref > 0 && Allowed(v, e) && e.ReplyCreated?
    requires v.chain != [] && v.chain[|v.chain| - 1].ctx == v.ctx && v.chain[|v.chain| - 1].pref == v.pref
    ensures NamesLink(e.context, Apply(v, e).chain) && e.context.ctx == e.ctx
  {}

  /** A reply names a version of its context and preference, with its sources and calls, and the version stays. */
  lemma {:induction false} ReplyNamesVersion(log: seq<EventBody>, k: nat)
    requires Legal(log) && k < |log| && log[k].ReplyCreated?
    ensures NamesLink(log[k].context, Fold(log).chain) && log[k].context.ctx == log[k].ctx
  {
    var n := |log| - 1;
    if k < n {
      ReplyNamesVersion(log[..n], k);
      ChainExtends(Fold(log[..n]), log[n], log[k].context);
    } else {
      Started(log[..n]);
      ReplyingIsAboutLast(log[..n]);
      ReplyNamesLast(Fold(log[..n]), log[n]);
    }
  }

  lemma {:induction false} ReplyHasEvent(log: seq<EventBody>, t: TurnId) returns (k: nat)
    requires Legal(log) && t in Fold(log).turns && Fold(log).turns[t].kind == AgentReply
    ensures k < |log| && log[k].ReplyCreated? && log[k].turn == t && log[k].ctx == Fold(log).turns[t].ctx
  {
    var n := |log| - 1;
    Started(log[..n]);
    if log[n].ReplyCreated? && log[n].turn == t {
      k := n;
    } else {
      k := ReplyHasEvent(log[..n], t);
    }
  }

  lemma RowOfReply(db: SessionDb, r: TurnId) returns (context: ReplyContext)
    requires Inv(db) && r in db.turns && db.turns[r].kind == AgentReply
    ensures db.turns[r].reply == Some(context) && ContextOk(context, db.preferences, db.calls)
    ensures context.ctx == db.turns[r].ctx && NamesLink(context, ViewOf(db).chain)
  {
    assert Holds(Turns, db) && Holds(Log, db) && Holds(Replies, db);
    assert TurnMatches(db.turns[r], ViewOf(db).turns[r]);
    var k := ReplyHasEvent(Bodies(db.outbox), r);
    ReplyNamesVersion(Bodies(db.outbox), k);
    assert db.outbox[k].body.ReplyCreated?;
    context := db.outbox[k].body.context;
  }

  /** The reply and the itinerary row tell of the same version. */
  predicate TellsVersion(context: ReplyContext, row: Itinerary, preferences: map<nat, Preference>) {
    && row.ctx == context.ctx && row.pref == context.pref && row.sources == context.sourceTasks
    && context.pref in preferences
    && IsDestination(row.content.destination, preferences[context.pref].payload, "当前目的地")
    && context.message == "已根据当前偏好整理 " + row.content.destination + " 的版本化旅行建议。"
  }

  /** The reply holds what the tool call of its only source task returned, and that is the task's result. */
  predicate TellsResult(context: ReplyContext, tasks: map<TaskId, Task>, calls: map<CallId, ToolCall>) {
    && |context.sourceTasks| == |context.sourceCalls| == |context.results| == 1
    && context.sourceCalls[0] in calls && calls[context.sourceCalls[0]].task == context.sourceTasks[0]
    && context.sourceTasks[0] in tasks && tasks[context.sourceTasks[0]].result == Some(context.results[0])
  }

  lemma RowTells(
    context: ReplyContext, row: Itinerary, link: Link, last: bool, preferences: map<nat, Preference>,
    calls: map<CallId, ToolCall>)
    requires ContextOk(context, preferences, calls) && ItineraryMatches(row, link, last)
    requires link == Link(context.ctx, context.pref, context.sourceTasks, context.sourceCalls)
    requires row.content.destination == Destination(preferences[context.pref].payload, CURRENT_DESTINATION)
    ensures TellsVersion(context, row, preferences)
  {}

  lemma ResultTells(
    context: ReplyContext, link: Link, tasks: map<TaskId, Task>, calls: map<CallId, ToolCall>, preferences: map<nat, Preference>)
    requires ContextOk(context, preferences, calls) && CallsOk(tasks, calls)
    requires link == Link(context.ctx, context.pref, context.sourceTasks, context.sourceCalls)
    requires |link.sources| == 1 && |link.calls| == 1
    requires forall c :: c in link.calls ==> c in calls && calls[c].status == CallSucceeded && calls[c].task in link.sources
    ensures TellsResult(context, tasks, calls)
  {
    var c := context.sourceCalls[0];
    assert c in link.calls && Returned(calls, c, context.results[0]);
    assert CallOk(tasks, calls[c]);
  }

  lemma LinkOfReply(db: SessionDb, x: nat)
    requires Inv(db) && 1 <= x <= |ViewOf(db).chain|
    ensures x in db.itineraries
    ensures ItineraryMatches(db.itineraries[x], ViewOf(db).chain[x - 1], x == |ViewOf(db).chain|)
    ensures ContentOk(ViewOf(db).chain[x - 1], db.itineraries[x].content, db.calls, db.preferences)
  {
    assert Holds(Itineraries, db) && Holds(Contents, db);
  }

  lemma ContextTells(db: SessionDb, context: ReplyContext)
    requires Inv(db) && ContextOk(context, db.preferences, db.calls) && NamesLink(context, ViewOf(db).chain)
    ensures context.itinerary in db.itineraries
    ensures TellsVersion(context, db.itineraries[context.itinerary], db.preferences)
    ensures TellsResult(context, db.tasks, db.calls)
  {
    LinkOfReply(db, context.itinerary);
    var row, link := db.itineraries[context.itinerary], ViewOf(db).chain[context.itinerary - 1];
    RowTells(context, row, link, context.itinerary == |ViewOf(db).chain|, db.preferences, db.calls);
    ResultTells(context, link, db.tasks, db.calls, db.preferences) by {
      assert Holds(Calls, db);
    }
  }

  /** A reply is about one itinerary version of its context, made from the same task; it names the version's
    destination, which is that of the preference, and tells what the task's tool call returned. */
  lemma ReplyTellsItsVersion(w: World, r: TurnId)
    requires Reachable(w) && r in w.db.turns && w.db.turns[r].kind == AgentReply
    ensures w.db.turns[r].reply.Some?
    ensures var context := w.db.turns[r].reply.value;
            && context.ctx == w.db.turns[r].ctx && context.itinerary in w.db.itineraries
            && TellsVersion(context, w.db.itineraries[context.itinerary], w.db.preferences)
            && TellsResult(context, w.db.tasks, w.db.calls)
  {
    ReachableInv(w);
    var context := RowOfReply(w.db, r);
    ContextTells(w.db, context);
  }
}
