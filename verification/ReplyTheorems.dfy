/** What every run promises about the conversation and the itinerary. */
module ReplyTheorems {
  import opened Rows
  import opened Transactions
  import opened History
  import opened Refinement
  import opened TaskSteps
  import opened ReplySteps
  import opened Runs
  import opened RunInvariant
  import opened LogTheorems
  import opened Theorems

  // ---------- Replies ----------

  /** No lost reply: while the session stands at the version of a succeeded task, and no reply exists, composing
    creates the reply, built from that task and its result alone and confirming the next itinerary version. */
  lemma NoLostReply(w: World, turn: TurnId, id: TaskId, newTurn: TurnId, taskRows: seq<TaskId>, callRows: seq<CallId>)
    requires Reachable(w) && id in w.db.tasks && w.db.tasks[id].status == Succeeded
    requires w.db.tasks[id].turn == Some(turn) && w.db.tasks[id].ctx == Some(w.db.ctx)
    requires !KeyTaken(w.db.outbox, KeyReply(turn, w.db.ctx)) && newTurn !in w.db.turns
    requires ComposeRows(PlanCompose(w.db, turn, w.db.ctx), taskRows, callRows)
    ensures var r := ComposeReply(w.db, turn, w.db.ctx, newTurn, taskRows, callRows);
            && r.Commit? && r.value.Reply?
            && r.value.context.sourceTasks == [id] && r.value.context.itinerary == CurrentItinerary(w.db) + 1
            && w.db.tasks[id].result.Some? && r.value.context.results == [w.db.tasks[id].result.value]
            && newTurn in r.db.turns && r.db.turns[newTurn].parent == Some(turn)
            && r.db.turns[newTurn].reply == Some(r.value.context)
            && KeyTaken(r.db.outbox, KeyReply(turn, w.db.ctx))
  {
    ReachableInv(w);
    var c := PlanIsBuild(w.db, turn, id);
    SingletonRows(taskRows, id);
    SingletonRows(callRows, c);
    ReplyIsBuilt(w.db, turn, id, c, newTurn);
  }

  lemma ReplyIsBuilt(db: SessionDb, turn: TurnId, id: TaskId, c: CallId, newTurn: TurnId)
    requires Inv(db) && id in db.tasks && db.tasks[id].turn == Some(turn) && db.tasks[id].ctx == Some(db.ctx)
    requires !KeyTaken(db.outbox, KeyReply(turn, db.ctx)) && newTurn !in db.turns
    requires PlanCompose(db, turn, db.ctx) == Build(ViewOf(db).pref, {id}, {c}, CurrentItinerary(db))
    requires c in db.calls && db.calls[c].task == id && db.calls[c].status == CallSucceeded
    ensures var r := ComposeReply(db, turn, db.ctx, newTurn, [id], [c]);
            && r.Commit? && r.value.Reply?
            && r.value.context.sourceTasks == [id] && r.value.context.itinerary == CurrentItinerary(db) + 1
            && db.tasks[id].result.Some? && r.value.context.results == [db.tasks[id].result.value]
            && newTurn in r.db.turns && r.db.turns[newTurn].parent == Some(turn)
            && r.db.turns[newTurn].reply == Some(r.value.context)
            && KeyTaken(r.db.outbox, KeyReply(turn, db.ctx))
  {
    NextVersionIsFree(db, turn, id);
    CallHasResult(db, id, c);
    assert Outputs(db.calls, [c]) == [OutputOf(db.calls[c])];
    var r := ComposeReply(db, turn, db.ctx, newTurn, [id], [c]);
    assert r.db.outbox[|r.db.outbox| - 1].key == KeyReply(turn, db.ctx);
  }

  lemma CallHasResult(db: SessionDb, id: TaskId, c: CallId)
    requires Inv(db) && c in db.calls && db.calls[c].task == id && db.calls[c].status == CallSucceeded
    ensures id in db.tasks && db.calls[c].output.Some? && db.tasks[id].result == db.calls[c].output
  {
    assert Holds(Calls, db);
    assert CallOk(db.tasks, db.calls[c]);
  }

  /** Once there is a reply, every further compose of its turn changes nothing and answers with what the reply turn
    holds. */
  lemma ComposeIsIdempotent(w: World, turn: TurnId, newTurn: TurnId, taskRows: seq<TaskId>, callRows: seq<CallId>)
    requires Reachable(w) && KeyTaken(w.db.outbox, KeyReply(turn, w.db.ctx))
    ensures var r := ComposeReply(w.db, turn, w.db.ctx, newTurn, taskRows, callRows);
            && r.Commit? && r.db == w.db && r.value.Reply?
            && exists t :: t in w.db.turns && w.db.turns[t].parent == Some(turn) && w.db.turns[t].kind == AgentReply
                 && w.db.turns[t].reply == Some(r.value.context)
  {
    ReachableInv(w);
    ActiveIsLatest(w.db);
    var row := RowWithKey(w.db.outbox, KeyReply(turn, w.db.ctx));
    ReplyRowTurn(w.db, row, turn);
    var t := row.body.turn;
    assert w.db.turns[t].parent == Some(turn);
  }

  /** The row under a reply key tells of the reply turn of its parent. */
  lemma ReplyRowTurn(db: SessionDb, row: EventRow, turn: TurnId)
    requires Inv(db) && row in db.outbox && row.key.KeyReply? && row.key.turn == turn
    ensures row.body.ReplyCreated? && row.body.turn in db.turns
    ensures db.turns[row.body.turn].kind == AgentReply && db.turns[row.body.turn].parent == Some(turn)
    ensures db.turns[row.body.turn].reply == Some(row.body.context)
  {
    assert Holds(Log, db) && Holds(Replies, db) && Holds(Turns, db);
    var i :| 0 <= i < |db.outbox| && db.outbox[i] == row;
    assert KeyFits(row);
    ReplyTurnStays(Bodies(db.outbox), i);
    assert TurnMatches(db.turns[row.body.turn], ViewOf(db).turns[row.body.turn]);
  }

  lemma {:induction false} ReplyTurnStays(log: seq<EventBody>, k: nat)
    requires Legal(log) && k < |log| && log[k].ReplyCreated?
    ensures var v := Fold(log);
            && log[k].turn in v.turns && v.turns[log[k].turn].kind == AgentReply
            && v.turns[log[k].turn].parent == Some(log[k].parent)
  {
    var n := |log| - 1;
    Started(log[..n]);
    if k < n {
      ReplyTurnStays(log[..n], k);
      TurnsPersistKeeps(Fold(log[..n]), log[n]);
    }
  }

  lemma NextVersionIsFree(db: SessionDb, turn: TurnId, id: TaskId)
    requires Inv(db) && id in db.tasks && db.tasks[id].turn == Some(turn) && db.tasks[id].ctx == Some(db.ctx)
    requires !KeyTaken(db.outbox, KeyReply(turn, db.ctx))
    ensures CurrentItinerary(db) + 1 !in db.itineraries && !KeyTaken(db.outbox, KeyItinerary(turn, db.ctx))
  {
    OneSource(db, turn, id, id);
    ConfirmedIsLatest(db);
    assert Holds(Itineraries, db) && Holds(ReplyKeys, db);
  }

  predicate IsTaken(turns: map<TurnId, Turn>, position: nat) {
    exists t :: t in turns && turns[t].sequenceNo == position
  }

  /** Positions are exactly 1..n, each taken by one turn. */
  ghost predicate PositionsFilled(turns: map<TurnId, Turn>) {
    && (forall t :: t in turns ==> 1 <= turns[t].sequenceNo <= |turns|)
    && (forall k :: 1 <= k <= |turns| ==> IsTaken(turns, k))
    && (forall a, b :: a in turns && b in turns && turns[a].sequenceNo == turns[b].sequenceNo ==> a == b)
  }

  /** User turns have strictly increasing context versions. */
  ghost predicate UserTurnsAdvance(turns: map<TurnId, Turn>) {
    forall a, b :: a in turns && b in turns && turns[a].kind == UserText && turns[b].kind == UserText ==>
      (turns[a].sequenceNo < turns[b].sequenceNo <==> turns[a].ctx < turns[b].ctx)
  }

  predicate Follows(turns: map<TurnId, Turn>, reply: Turn) {
    && reply.parent.Some? && reply.parent.value in turns
    && turns[reply.parent.value].kind == UserText
    && reply.sequenceNo == turns[reply.parent.value].sequenceNo + 1
    && reply.ctx == turns[reply.parent.value].ctx
  }

  predicate AreSiblings(a: Turn, b: Turn) {
    a.kind == AgentReply && b.kind == AgentReply && a.parent == b.parent
  }

  /** A reply directly follows its parent, in the same context, and no turn has two replies. */
  ghost predicate RepliesFollow(turns: map<TurnId, Turn>) {
    && (forall r :: r in turns && turns[r].kind == AgentReply ==> Follows(turns, turns[r]))
    && (forall r, q :: r in turns && q in turns && AreSiblings(turns[r], turns[q]) ==> r == q)
  }

  lemma {:induction false} DistinctLength<T(!new)>(s: seq<T>, all: set<T>)
    requires forall i, j :: 0 <= i < j < |s| ==> s[i] != s[j]
    requires forall x :: x in all <==> x in s
    ensures |all| == |s|
    decreases |s|
  {
    if s != [] {
      var n := |s| - 1;
      assert s == s[..n] + [s[n]];
      DistinctLength(s[..n], all - {s[n]});
    }
  }

  lemma OrderIsAllTurns(v: View)
    requires GapFree(v)
    ensures |v.turns| == |v.order|
  {
    forall i, j | 0 <= i < j < |v.order| ensures v.order[i] != v.order[j] {
      assert v.turns[v.order[i]].seqNo == i + 1;
    }
    forall t ensures t in v.turns.Keys <==> t in v.order {
      if t in v.turns {
        assert v.order[v.turns[t].seqNo - 1] == t;
      }
    }
    DistinctLength(v.order, v.turns.Keys);
    assert |v.turns| == |v.turns.Keys|;
  }

  lemma PositionsFromOrder(turns: map<TurnId, Turn>, v: View)
    requires GapFree(v) && TurnsAgree(turns, v.turns) && |turns| == |v.order|
    ensures PositionsFilled(turns)
  {
    forall k | 1 <= k <= |turns| ensures IsTaken(turns, k) {
      assert v.order[k - 1] in turns && turns[v.order[k - 1]].sequenceNo == k;
    }
    forall a, b | a in turns && b in turns && turns[a].sequenceNo == turns[b].sequenceNo ensures a == b {
      assert v.order[v.turns[a].seqNo - 1] == a && v.order[v.turns[b].seqNo - 1] == b;
    }
  }

  lemma PositionsHold(db: SessionDb)
    requires Inv(db)
    ensures PositionsFilled(db.turns)
  {
    InvIsSound(db);
    assert Holds(Turns, db);
    OrderIsAllTurns(ViewOf(db));
    assert |db.turns| == |db.turns.Keys| && |ViewOf(db).turns| == |ViewOf(db).turns.Keys|;
    PositionsFromOrder(db.turns, ViewOf(db));
  }

  /** The largest position is the number of turns. */
  lemma LastPosition(db: SessionDb)
    requires Inv(db)
    ensures MaxSequence(db.turns) == |db.turns|
  {
    SequencesAreGapFree(db);
    InvIsSound(db);
    OrderIsAllTurns(ViewOf(db));
    assert Holds(Turns, db);
    assert |db.turns| == |db.turns.Keys| && |ViewOf(db).turns| == |ViewOf(db).turns.Keys|;
  }

  lemma UserTurnsHold(db: SessionDb)
    requires Inv(db)
    ensures UserTurnsAdvance(db.turns)
  {
    InvIsSound(db);
    var v := ViewOf(db);
    assert Holds(Turns, db);
    forall a, b | a in v.turns && b in v.turns && v.turns[a].kind == UserText && v.turns[b].kind == UserText
      ensures v.turns[a].seqNo < v.turns[b].seqNo ==> v.turns[a].ctx < v.turns[b].ctx
      ensures v.turns[a].ctx < v.turns[b].ctx ==> v.turns[a].seqNo < v.turns[b].seqNo
    {
      assert !IsReplyTo(v, a, b) && !IsReplyTo(v, b, a);
      if v.turns[a].seqNo == v.turns[b].seqNo {
        assert v.order[v.turns[a].seqNo - 1] == a && v.order[v.turns[b].seqNo - 1] == b;
      }
    }
  }

  lemma RepliesHold(db: SessionDb)
    requires Inv(db)
    ensures RepliesFollow(db.turns)
  {
    InvIsSound(db);
    var v := ViewOf(db);
    assert Holds(Turns, db);
    forall r | r in db.turns && db.turns[r].kind == AgentReply ensures Follows(db.turns, db.turns[r]) {
      assert IsReplyTo(v, r, v.turns[r].parent.value);
    }
    PositionsHold(db);
  }

  /** The conversation keeps its shape under any redelivery of compose messages. */
  lemma ConversationShape(w: World)
    requires Reachable(w)
    ensures PositionsFilled(w.db.turns) && UserTurnsAdvance(w.db.turns) && RepliesFollow(w.db.turns)
  {
    ReachableInv(w);
    PositionsHold(w.db);
    UserTurnsHold(w.db);
    RepliesHold(w.db);
  }

  // ---------- Itineraries ----------

  /** The item is what an object entry of the call's output recommends, with the defaults for what that lacks. */
  predicate IsItemOf(item: Item, call: CallId, e: Recommendation) {
    && e.Recommendation? && item.sourceCall == call
    && (e.name != "" ==> item.name == e.name) && (e.name == "" ==> item.name == "未命名推荐")
    && (e.category != "" ==> item.category == e.category) && (e.category == "" ==> item.category == "activity")
  }

  ghost predicate CitedFrom(item: Item, call: CallId, output: ToolOutput) {
    output.Recommendations? && exists e :: e in output.entries && IsItemOf(item, call, e)
  }

  function Objects(entries: seq<Recommendation>): nat {
    if entries == [] then 0 else Objects(entries[..|entries| - 1]) + if entries[|entries| - 1].Recommendation? then 1 else 0
  }

  /** The items are those of the object entries of the output, all of them, in their order. */
  ghost predicate Lists(items: seq<Item>, call: CallId, output: ToolOutput) {
    match output
    case NoRecommendations => items == []
    case Recommendations(entries) =>
      && |items| == Objects(entries)
      && forall i :: 0 <= i < |entries| && entries[i].Recommendation? ==>
           Objects(entries[..i]) < |items| && IsItemOf(items[Objects(entries[..i])], call, entries[i])
  }

  lemma {:induction false} EntriesAreListed(entries: seq<Recommendation>, call: CallId)
    ensures Lists(ItemsOfEntries(entries, call), call, Recommendations(entries))
  {
    if entries != [] {
      var n := |entries| - 1;
      EntriesAreListed(entries[..n], call);
      forall i | 0 <= i < |entries| && entries[i].Recommendation?
        ensures Objects(entries[..i]) < |ItemsOfEntries(entries, call)|
        ensures IsItemOf(ItemsOfEntries(entries, call)[Objects(entries[..i])], call, entries[i])
      {
        if i < n {
          assert entries[..n][..i] == entries[..i] && entries[..n][i] == entries[i];
        }
      }
    }
  }

  lemma {:induction false} ItemsCiteEntries(entries: seq<Recommendation>, call: CallId, item: Item)
    ensures item in ItemsOfEntries(entries, call) <==> CitedFrom(item, call, Recommendations(entries))
    decreases |entries|
  {
    if entries != [] {
      var n := |entries| - 1;
      assert entries == entries[..n] + [entries[n]];
      ItemsCiteEntries(entries[..n], call, item);
      assert forall e :: e in entries <==> e in entries[..n] || e == entries[n];
      assert CitedFrom(item, call, Recommendations(entries)) <==>
        CitedFrom(item, call, Recommendations(entries[..n])) || IsItemOf(item, call, entries[n]);
    }
  }

  /** An itinerary lists exactly what its tool calls recommended. */
  lemma {:induction false} ItemsCiteCalls(calls: map<CallId, ToolCall>, rows: seq<CallId>, item: Item)
    requires forall c :: c in rows ==> c in calls
    ensures item in ItemsOfCalls(calls, rows)
            <==> && item.sourceCall in rows && calls[item.sourceCall].output.Some?
                 && CitedFrom(item, item.sourceCall, calls[item.sourceCall].output.value)
    decreases |rows|
  {
    if rows != [] {
      var n := |rows| - 1;
      assert rows == rows[..n] + [rows[n]];
      ItemsCiteCalls(calls, rows[..n], item);
      if OutputOf(calls[rows[n]]).Recommendations? {
        ItemsCiteEntries(OutputOf(calls[rows[n]]).entries, rows[n], item);
      }
    }
  }

  /** The string is the destination that a preference names, or the given one when it names none. */
  predicate IsDestination(d: string, preference: Payload, otherwise: string) {
    if "destination" !in preference || preference["destination"] == "" then d == otherwise
    else d == preference["destination"]
  }

  /** What a confirmed version was built from: one succeeded task of its context, aimed at the version before it, and
    exactly what its succeeded tool call recommended. */
  ghost predicate VersionOk(db: SessionDb, version: nat)
    requires version in db.itineraries
  {
    var row := db.itineraries[version];
    && |row.sources| == 1
    && (forall id :: id in row.sources ==>
          && id in db.tasks && db.tasks[id].status == Succeeded
          && db.tasks[id].ctx == Some(row.ctx) && db.tasks[id].pref == Some(row.pref)
          && db.tasks[id].itin == Some(version - 1))
    && (forall c :: c in db.calls && IsSourceCall(db.calls[c], row.sources) ==>
          db.calls[c].output.Some? && Lists(row.content.items, c, db.calls[c].output.value))
    && (forall item :: item in row.content.items <==>
          && item.sourceCall in db.calls && IsSourceCall(db.calls[item.sourceCall], row.sources)
          && db.calls[item.sourceCall].output.Some?
          && CitedFrom(item, item.sourceCall, db.calls[item.sourceCall].output.value))
    && row.content.generatedFrom == row.ctx
    && row.pref in db.preferences
    && IsDestination(row.content.destination, db.preferences[row.pref].payload, "当前目的地")
  }

  predicate IsSourceCall(call: ToolCall, sources: seq<TaskId>) {
    call.task in sources && call.status == CallSucceeded
  }

  lemma LinkOfVersion(db: SessionDb, version: nat)
    requires Inv(db) && version in db.itineraries
    ensures 1 <= version <= |ViewOf(db).chain| && LinkOk(ViewOf(db), version - 1)
    ensures ItineraryMatches(db.itineraries[version], ViewOf(db).chain[version - 1], version == |ViewOf(db).chain|)
  {
    InvIsSound(db);
    assert Holds(Itineraries, db);
  }

  lemma ChainSources(db: SessionDb, version: nat)
    requires Inv(db) && version in db.itineraries
    ensures var row := db.itineraries[version];
            && row.sources != []
            && forall id :: id in row.sources ==>
                 && id in db.tasks && db.tasks[id].status == Succeeded
                 && db.tasks[id].ctx == Some(row.ctx) && db.tasks[id].pref == Some(row.pref)
                 && db.tasks[id].itin == Some(version - 1)
  {
    LinkOfVersion(db, version);
    assert Holds(Tasks, db);
    var row := db.itineraries[version];
    forall id | id in row.sources
      ensures id in db.tasks && TaskMatches(db.tasks[id], ViewOf(db).tasks[id])
    {
      assert id in ViewOf(db).tasks;
    }
  }

  /** A succeeded call of a source is among the calls the version was built from. */
  lemma SourceCallIsListed(db: SessionDb, version: nat, c: CallId)
    requires Inv(db) && version in db.itineraries && 1 <= version <= |ViewOf(db).chain|
    requires ContentOk(ViewOf(db).chain[version - 1], db.itineraries[version].content, db.calls, db.preferences)
    ensures c in ViewOf(db).chain[version - 1].calls
            <==> c in db.calls && IsSourceCall(db.calls[c], ViewOf(db).chain[version - 1].sources)
  {
    var link := ViewOf(db).chain[version - 1];
    if c in db.calls && IsSourceCall(db.calls[c], link.sources) {
      assert IsCited(link, db.calls, db.calls[c].task);
      assert Holds(Calls, db);
    }
  }

  lemma VersionHolds(db: SessionDb, version: nat)
    requires Inv(db) && version in db.itineraries
    ensures VersionOk(db, version)
  {
    ChainSources(db, version);
    assert Holds(Itineraries, db) && Holds(Contents, db);
    var link, row := ViewOf(db).chain[version - 1], db.itineraries[version];
    assert ItineraryMatches(row, link, version == |ViewOf(db).chain|);
    assert ContentOk(link, row.content, db.calls, db.preferences);
    forall c | c in db.calls && IsSourceCall(db.calls[c], row.sources)
      ensures db.calls[c].output.Some? && Lists(row.content.items, c, db.calls[c].output.value)
    {
      SourceCallIsListed(db, version, c);
      CallHasResult(db, db.calls[c].task, c);
      OneCallIsListed(db.calls, link.calls, c);
    }
    forall item
      ensures item in row.content.items <==>
        && item.sourceCall in db.calls && IsSourceCall(db.calls[item.sourceCall], row.sources)
        && db.calls[item.sourceCall].output.Some?
        && CitedFrom(item, item.sourceCall, db.calls[item.sourceCall].output.value)
    {
      ItemsCiteCalls(db.calls, link.calls, item);
      SourceCallIsListed(db, version, item.sourceCall);
    }
  }

  lemma OneCallIsListed(calls: map<CallId, ToolCall>, rows: seq<CallId>, c: CallId)
    requires |rows| == 1 && c in rows && c in calls && calls[c].output.Some?
    ensures Lists(ItemsOfCalls(calls, rows), c, calls[c].output.value)
  {
    assert rows == [c] && rows[..0] == [] && ItemsOfCalls(calls, rows[..0]) == [];
    if calls[c].output.value.Recommendations? {
      EntriesAreListed(calls[c].output.value.entries, c);
    }
  }

  lemma VersionsAreCounted(itineraries: map<nat, Itinerary>, n: nat)
    requires forall x :: x in itineraries <==> 1 <= x <= n
    ensures |itineraries| == n
  {
    var versions := seq(n, i => i + 1);
    forall x ensures x in itineraries.Keys <==> x in versions {
      if 1 <= x <= n {
        assert versions[x - 1] == x;
      }
    }
    DistinctLength(versions, itineraries.Keys);
    assert |itineraries| == |itineraries.Keys|;
  }

  /** Itinerary versions are exactly 1..n, only n is confirmed, their contexts strictly increase, and each version
    was built from succeeded tasks that aimed at the version before it. */
  lemma ItineraryChain(w: World)
    requires Reachable(w)
    ensures forall x :: x in w.db.itineraries <==> 1 <= x <= |w.db.itineraries|
    ensures forall x :: x in w.db.itineraries ==> (w.db.itineraries[x].status == Confirmed <==> x == |w.db.itineraries|)
    ensures forall x, y :: x in w.db.itineraries && y in w.db.itineraries && x < y ==>
              w.db.itineraries[x].ctx < w.db.itineraries[y].ctx
    ensures forall x :: x in w.db.itineraries ==> VersionOk(w.db, x)
  {
    ReachableInv(w);
    ChainShape(w.db);
    forall x | x in w.db.itineraries ensures VersionOk(w.db, x) {
      VersionHolds(w.db, x);
    }
  }

  lemma ChainShape(db: SessionDb)
    requires Inv(db)
    ensures forall x :: x in db.itineraries <==> 1 <= x <= |db.itineraries|
    ensures forall x :: x in db.itineraries ==> (db.itineraries[x].status == Confirmed <==> x == |db.itineraries|)
    ensures forall x, y :: x in db.itineraries && y in db.itineraries && x < y ==> db.itineraries[x].ctx < db.itineraries[y].ctx
  {
    InvIsSound(db);
    assert Holds(Itineraries, db);
    var chain := ViewOf(db).chain;
    VersionsAreCounted(db.itineraries, |chain|);
    forall x | x in db.itineraries
      ensures db.itineraries[x].status == Confirmed <==> x == |chain|
      ensures db.itineraries[x].ctx == chain[x - 1].ctx
    {
      assert ItineraryMatches(db.itineraries[x], chain[x - 1], x == |chain|);
    }
  }

  /** The sources of a confirmed version stay succeeded for ever. */
  lemma SourcesStaySucceeded(w: World, steps: seq<Step>, version: nat, id: TaskId)
    requires Reachable(w) && version in w.db.itineraries && id in w.db.itineraries[version].sources
    ensures id in After(w, steps).db.tasks && After(w, steps).db.tasks[id].status == Succeeded
  {
    ReachableInv(w);
    ChainSources(w.db, version);
    TasksOnlyRise(w, steps, id);
  }

  /** No compose message of any run ever ends in an itinerary conflict. */
  lemma ConflictsAreUnreachable(w: World)
    requires Reachable(w)
    ensures w.conflicts == {}
    ensures forall turn, ctx, newTurn, taskRows, callRows {:trigger ComposeReply(w.db, turn, ctx, newTurn, taskRows, callRows)} ::
              ComposeRows(PlanCompose(w.db, turn, ctx), taskRows, callRows) ==>
                var r := ComposeReply(w.db, turn, ctx, newTurn, taskRows, callRows);
                r.Commit? ==> r.value != ItineraryConflict
  {
    ReachableInv(w);
    forall turn, ctx, newTurn, taskRows, callRows {:trigger ComposeReply(w.db, turn, ctx, newTurn, taskRows, callRows)} |
      ComposeRows(PlanCompose(w.db, turn, ctx), taskRows, callRows)
      ensures var r := ComposeReply(w.db, turn, ctx, newTurn, taskRows, callRows); r.Commit? ==> r.value != ItineraryConflict
    {
      NeverConflicts(w.db, turn, ctx, newTurn, taskRows, callRows);
    }
  }
}
