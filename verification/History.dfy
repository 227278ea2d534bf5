/** The session as its event log tells it.

  `Apply` folds one event into a View; `Allowed` says which event may come next.  The log of a session is legal when
  every event was allowed by the fold of the events before it.  Everything here is about logs alone: that the
  tables of the database are the fold of a legal log is proved in Refinement.
 */
module History {
  import opened Rows

  datatype TurnView = TurnView(
    seqNo: nat, kind: TurnKind, ctx: nat, pref: nat,
    base: nat,            // confirmed itinerary version when the turn was written
    parent: Option<TurnId>,
    interrupted: bool,
    replied: bool)
  datatype TaskView = TaskView(turn: TurnId, ctx: nat, pref: nat, itin: nat, status: TaskStatus)
  /** One confirmed itinerary version; version k + 1 is chain[k]. */
  datatype Link = Link(ctx: nat, pref: nat, sources: seq<TaskId>, calls: seq<CallId>)
  /** Events that one transaction writes together: the batch that is still open. */
  datatype Batch = Idle | Interrupting(turn: TurnId) | Replying(turn: TurnId)

  datatype View = View(
    ctx: nat,
    pref: nat,
    turns: map<TurnId, TurnView>,
    order: seq<TurnId>,   // the conversation, in order
    tasks: map<TaskId, TaskView>,
    chain: seq<Link>,
    batch: Batch)

  const EMPTY := View(0, 0, map[], [], map[], [], Idle)

  function Apply(v: View, e: EventBody): View {
    match e
    case SessionCreated(c, p) => v.(ctx := c, pref := p)
    case TurnFinalized(t, c, p) =>
      v.(ctx := v.ctx + 1,
         turns := v.turns[t := TurnView(|v.order| + 1, UserText, c, p, |v.chain|, None, false, false)],
         order := v.order + [t])
    case PreferenceUpdated(_, _) => v.(ctx := v.ctx + 1, pref := v.pref + 1)
    case InterruptAccepted(t, _, _, _, _) =>
      v.(ctx := v.ctx + 1, batch := Idle,
         turns := if t in v.turns then v.turns[t := v.turns[t].(interrupted := true)] else v.turns)
    case TaskQueued(id, t, c, p, i, _) => v.(tasks := v.tasks[id := TaskView(t, c, p, i, Queued)])
    case TaskMoved(id, to, _, _) =>
      if id !in v.tasks then v
      else
        v.(tasks := v.tasks[id := v.tasks[id].(status := to)],
           batch := if to == CancelRequested then Interrupting(v.tasks[id].turn) else v.batch)
    case ItineraryConfirmed(_, c, p, sources, calls) =>
      v.(chain := v.chain + [Link(c, p, sources, calls)],
         batch := if sources != [] && sources[0] in v.tasks then Replying(v.tasks[sources[0]].turn) else v.batch)
    case ReplyCreated(r, parent, c, _) =>
      v.(batch := Idle,
         turns := (if parent in v.turns then v.turns[parent := v.turns[parent].(replied := true)] else v.turns)
                  [r := TurnView(|v.order| + 1, AgentReply, c, v.pref, |v.chain|, Some(parent), false, false)],
         order := v.order + [r])
  }

  function Rank(s: TaskStatus): nat {
    match s
    case Queued => 0
    case Running => 1
    case CancelRequested => 2
    case Cancelled => 3
    case Succeeded => 3
    case Failed => 3
    case Discarded => 4
  }

  predicate MayMove(v: View, task: TaskView, to: TaskStatus) {
    match to
    case Queued => false
    case Running => task.status == Queued && v.batch == Idle
    case CancelRequested =>
      task.status in {Queued, Running} && task.ctx == v.ctx && v.batch in {Idle, Interrupting(task.turn)}
    case Cancelled => task.status == CancelRequested && v.batch == Idle
    case Succeeded => task.status == Running && task.ctx == v.ctx && task.pref == v.pref && v.batch == Idle
    case Failed => task.status == Running && v.batch == Idle
    case Discarded => task.status in {Running, CancelRequested, Cancelled} && task.ctx < v.ctx && v.batch == Idle
  }

  /** A source of the next itinerary version: succeeded, current, and aimed at the version that is replaced. */
  predicate IsSource(v: View, id: TaskId, turn: TurnId) {
    && id in v.tasks
    && v.tasks[id] == TaskView(turn, v.ctx, v.pref, |v.chain|, Succeeded)
  }

  ghost predicate Allowed(v: View, e: EventBody) {
    if v.pref == 0 then e == SessionCreated(0, 1)
    else
      match e
      case SessionCreated(_, _) => false
      case TurnFinalized(t, c, p) => v.batch == Idle && c == v.ctx + 1 && p == v.pref && t !in v.turns
      case PreferenceUpdated(c, p) => v.batch == Idle && c == v.ctx + 1 && p == v.pref + 1
      case InterruptAccepted(t, c, cancelled, status, _) =>
        && v.batch in {Idle, Interrupting(t)} && c == v.ctx + 1 && status == Interrupted
        && t in v.turns && v.turns[t].ctx == v.ctx
        && (forall id :: id in v.tasks && v.tasks[id].turn == t ==> v.tasks[id].status !in {Queued, Running})
        && (forall id :: id in cancelled ==>
              id in v.tasks && v.tasks[id].turn == t && v.tasks[id].status == CancelRequested)
      case TaskQueued(id, t, c, p, i, _) =>
        && v.batch == Idle && c == v.ctx && p == v.pref && i == |v.chain| && id !in v.tasks
        && t in v.turns && v.turns[t].kind == UserText && v.turns[t].ctx == c
        && (forall other :: other in v.tasks && v.tasks[other].turn == t ==> v.tasks[other].itin != i)
      case TaskMoved(id, to, t, c) =>
        && id in v.tasks && MayMove(v, v.tasks[id], to)
        && (to != Failed ==> t == Some(v.tasks[id].turn) && c == Some(v.tasks[id].ctx))
        && (to == Failed ==> t == None && c == None)
      case ItineraryConfirmed(version, c, p, sources, _) =>
        && v.batch == Idle && version == |v.chain| + 1 && c == v.ctx && p == v.pref
        && sources != [] && sources[0] in v.tasks
        && (var t := v.tasks[sources[0]].turn;
            && t in v.turns && !v.turns[t].replied
            && forall id :: id in sources ==> IsSource(v, id, t))
      case ReplyCreated(r, parent, c, context) =>
        && v.batch == Replying(parent) && c == v.ctx && r !in v.turns
        && parent in v.turns && v.turns[parent].ctx == c
        && v.chain != []
        && context.ctx == c && context.pref == v.pref && context.itinerary == |v.chain|
        && context.sourceTasks == v.chain[|v.chain| - 1].sources
        && context.sourceCalls == v.chain[|v.chain| - 1].calls
  }

  function Fold(log: seq<EventBody>): View {
    if log == [] then EMPTY else Apply(Fold(log[..|log| - 1]), log[|log| - 1])
  }

  ghost predicate Legal(log: seq<EventBody>) {
    log == [] || (Legal(log[..|log| - 1]) && Allowed(Fold(log[..|log| - 1]), log[|log| - 1]))
  }

  lemma {:induction false} LegalPrefix(log: seq<EventBody>, k: nat)
    requires Legal(log) && k <= |log|
    ensures Legal(log[..k])
    ensures k < |log| ==> Allowed(Fold(log[..k]), log[k]) && Fold(log[..k + 1]) == Apply(Fold(log[..k]), log[k])
  {
    var n := |log| - 1;
    if k < |log| {
      if k < n {
        LegalPrefix(log[..n], k);
        assert log[..n][..k] == log[..k] && log[..n][..k + 1] == log[..k + 1];
      } else {
        assert log[..k + 1] == log;
      }
    } else {
      assert log[..k] == log;
    }
  }

  // ---------- What every legal log keeps ----------

  predicate IsUser(v: View, t: TurnId) {
    t in v.turns && v.turns[t].kind == UserText
  }

  /** The conversation: positions are exactly 1..n. */
  ghost predicate GapFree(v: View) {
    && (forall k :: 0 <= k < |v.order| ==> v.order[k] in v.turns && v.turns[v.order[k]].seqNo == k + 1)
    && (forall t :: t in v.turns ==> 1 <= v.turns[t].seqNo <= |v.order| && v.order[v.turns[t].seqNo - 1] == t)
  }

  /** A later turn is newer, except for a reply, which directly follows its parent. */
  ghost predicate Ordered(v: View) {
    forall a, b :: a in v.turns && b in v.turns && v.turns[a].seqNo < v.turns[b].seqNo ==>
      v.turns[a].ctx < v.turns[b].ctx || IsReplyTo(v, b, a)
  }

  predicate IsReplyTo(v: View, r: TurnId, parent: TurnId) {
    && r in v.turns && parent in v.turns
    && v.turns[r].kind == AgentReply && v.turns[r].parent == Some(parent)
    && v.turns[r].ctx == v.turns[parent].ctx && v.turns[r].seqNo == v.turns[parent].seqNo + 1
    && v.turns[parent].kind == UserText && v.turns[parent].replied
  }

  ghost predicate TurnsOk(v: View) {
    forall t :: t in v.turns ==>
      && v.turns[t].ctx <= v.ctx
      && (v.turns[t].ctx == v.ctx ==> v.turns[t].pref == v.pref)
      && (v.turns[t].interrupted ==> v.turns[t].ctx < v.ctx)
      && v.turns[t].base <= |v.chain|
      && (v.turns[t].kind == AgentReply ==>
            v.turns[t].parent.Some? && IsReplyTo(v, t, v.turns[t].parent.value))
  }

  /** How far the itinerary has moved since the turn was written, as long as that turn is the newest context. */
  ghost predicate BaseOk(v: View) {
    forall t :: IsUser(v, t) && v.turns[t].ctx == v.ctx ==>
      |v.chain| == v.turns[t].base + (if v.turns[t].replied || v.batch == Replying(t) then 1 else 0)
  }

  predicate TaskOk(v: View, task: TaskView) {
    && IsUser(v, task.turn)
    && task.ctx == v.turns[task.turn].ctx
    && task.pref == v.turns[task.turn].pref
    && v.turns[task.turn].base <= task.itin <= v.turns[task.turn].base + 1
    && (task.itin == v.turns[task.turn].base + 1 ==> v.turns[task.turn].replied)
    && (task.status == CancelRequested ==> task.ctx < v.ctx || v.batch == Interrupting(task.turn))
    && (task.status in {Cancelled, Discarded} ==> task.ctx < v.ctx)
    && (v.turns[task.turn].interrupted ==> task.status !in {Queued, Running})
  }

  ghost predicate TasksOk(v: View) {
    && (forall id :: id in v.tasks ==> TaskOk(v, v.tasks[id]))
    && (forall a, b :: a in v.tasks && b in v.tasks && a != b && v.tasks[a].turn == v.tasks[b].turn ==>
          v.tasks[a].itin != v.tasks[b].itin)
  }

  ghost predicate LinkOk(v: View, k: nat)
    requires k < |v.chain|
  {
    var link := v.chain[k];
    && link.ctx <= v.ctx
    && link.sources != []
    && (forall id :: id in link.sources ==>
          && id in v.tasks && v.tasks[id].status == Succeeded && v.tasks[id].itin == k
          && v.tasks[id].ctx == link.ctx && v.tasks[id].pref == link.pref)
  }

  ghost predicate ChainOk(v: View) {
    && (forall k :: 0 <= k < |v.chain| ==> LinkOk(v, k))
    && (forall j, k :: 0 <= j < k < |v.chain| ==> v.chain[j].ctx < v.chain[k].ctx)
  }

  ghost predicate BatchOk(v: View) {
    match v.batch
    case Idle => true
    case Interrupting(t) => t in v.turns && v.turns[t].ctx == v.ctx
    case Replying(t) => IsUser(v, t) && v.turns[t].ctx == v.ctx && !v.turns[t].replied
  }

  ghost predicate Sound(v: View) {
    GapFree(v) && Ordered(v) && TurnsOk(v) && BaseOk(v) && TasksOk(v) && ChainOk(v) && BatchOk(v)
  }

  /** Two user turns of the same context are the same turn. */
  lemma OneTurnPerContext(v: View, a: TurnId, b: TurnId)
    requires Sound(v) && IsUser(v, a) && IsUser(v, b) && v.turns[a].ctx == v.turns[b].ctx
    ensures a == b
  {
    assert !IsReplyTo(v, b, a) && !IsReplyTo(v, a, b);
    assert v.turns[a].seqNo == v.turns[b].seqNo;
    assert v.order[v.turns[a].seqNo - 1] == a;
  }

  /** The turn of the newest context that has no reply yet ends the conversation. */
  lemma NewestIsLast(v: View, t: TurnId)
    requires Sound(v) && IsUser(v, t) && v.turns[t].ctx == v.ctx && !v.turns[t].replied
    ensures v.turns[t].seqNo == |v.order|
  {
    var last := v.order[|v.order| - 1];
    assert last in v.turns && v.turns[last].seqNo == |v.order| && !IsReplyTo(v, last, t);
  }

  lemma GapFreeAdd(v: View, v': View, t: TurnId)
    requires GapFree(v) && t !in v.turns
    requires v'.order == v.order + [t] && v'.turns.Keys == v.turns.Keys + {t}
    requires v'.turns[t].seqNo == |v.order| + 1
    requires forall u :: u in v.turns ==> v'.turns[u].seqNo == v.turns[u].seqNo
    ensures GapFree(v')
  {}

  lemma GapFreeFrame(v: View, v': View)
    requires GapFree(v) && v'.order == v.order && v'.turns.Keys == v.turns.Keys
    requires forall u :: u in v.turns ==> v'.turns[u].seqNo == v.turns[u].seqNo
    ensures GapFree(v')
  {}

  lemma GapFreeKeeps(v: View, e: EventBody)
    requires GapFree(v) && v.pref > 0 && Allowed(v, e)
    ensures GapFree(Apply(v, e))
  {
    match e
    case TurnFinalized(t, _, _) => GapFreeAdd(v, Apply(v, e), t);
    case ReplyCreated(r, _, _, _) => GapFreeAdd(v, Apply(v, e), r);
    case _ => GapFreeFrame(v, Apply(v, e));
  }

  /** Old turns keep their place, context and parenthood, and a replied turn stays replied. */
  ghost predicate TurnsPersist(v: View, v': View) {
    forall t :: t in v.turns ==>
      && t in v'.turns
      && v'.turns[t] == v.turns[t].(interrupted := v'.turns[t].interrupted, replied := v'.turns[t].replied)
      && (v.turns[t].replied ==> v'.turns[t].replied)
  }

  lemma OrderedAdd(v: View, v': View, t: TurnId)
    requires GapFree(v) && Ordered(v) && TurnsPersist(v, v') && t !in v.turns
    requires v'.turns.Keys == v.turns.Keys + {t} && v'.turns[t].seqNo == |v.order| + 1
    requires forall a :: a in v.turns ==> v.turns[a].ctx < v'.turns[t].ctx || IsReplyTo(v', t, a)
    ensures Ordered(v')
  {
    forall a, b | a in v'.turns && b in v'.turns && v'.turns[a].seqNo < v'.turns[b].seqNo
      ensures v'.turns[a].ctx < v'.turns[b].ctx || IsReplyTo(v', b, a)
    {
      if b != t {
        assert a in v.turns && b in v.turns;
        assert v.turns[a].ctx < v.turns[b].ctx || IsReplyTo(v, b, a);
      }
    }
  }

  lemma OrderedFrame(v: View, v': View)
    requires Ordered(v) && TurnsPersist(v, v') && v'.turns.Keys == v.turns.Keys
    ensures Ordered(v')
  {
    forall a, b | a in v'.turns && b in v'.turns && v'.turns[a].seqNo < v'.turns[b].seqNo
      ensures v'.turns[a].ctx < v'.turns[b].ctx || IsReplyTo(v', b, a)
    {
      assert v.turns[a].ctx < v.turns[b].ctx || IsReplyTo(v, b, a);
    }
  }

  lemma OthersAreOlder(v: View, t: TurnId, a: TurnId)
    requires Sound(v) && IsUser(v, t) && v.turns[t].ctx == v.ctx && !v.turns[t].replied && a in v.turns && a != t
    ensures v.turns[a].ctx < v.ctx
  {
    NewestIsLast(v, t);
    assert v.order[v.turns[a].seqNo - 1] == a && v.order[v.turns[t].seqNo - 1] == t;
    assert !IsReplyTo(v, t, a);
  }

  lemma ReplyFollows(v: View, e: EventBody)
    requires e.ReplyCreated? && Sound(v) && v.pref > 0 && Allowed(v, e)
    ensures TurnsPersist(v, Apply(v, e))
    ensures forall a :: a in v.turns ==>
              v.turns[a].ctx < Apply(v, e).turns[e.turn].ctx || IsReplyTo(Apply(v, e), e.turn, a)
  {
    NewestIsLast(v, e.parent);
    forall a | a in v.turns && a != e.parent ensures v.turns[a].ctx < v.ctx {
      OthersAreOlder(v, e.parent, a);
    }
  }

  lemma TurnsPersistKeeps(v: View, e: EventBody)
    requires v.pref > 0 && Allowed(v, e)
    ensures TurnsPersist(v, Apply(v, e))
  {}

  lemma OrderedKeeps(v: View, e: EventBody)
    requires Sound(v) && v.pref > 0 && Allowed(v, e)
    ensures Ordered(Apply(v, e))
  {
    TurnsPersistKeeps(v, e);
    if e.TurnFinalized? {
      assert forall a :: a in v.turns ==> v.turns[a].ctx <= v.ctx;
      OrderedAdd(v, Apply(v, e), e.turn);
    } else if e.ReplyCreated? {
      ReplyFollows(v, e);
      OrderedAdd(v, Apply(v, e), e.turn);
    } else {
      OrderedFrame(v, Apply(v, e));
    }
  }

  lemma TurnsOkKeeps(v: View, e: EventBody)
    requires Sound(v) && v.pref > 0 && Allowed(v, e)
    ensures TurnsOk(Apply(v, e))
  {
    if e.ReplyCreated? {
      NewestIsLast(v, e.parent);
    }
  }

  lemma BaseOkKeeps(v: View, e: EventBody)
    requires Sound(v) && v.pref > 0 && Allowed(v, e)
    ensures BaseOk(Apply(v, e))
  {
    var v' := Apply(v, e);
    if e.ItineraryConfirmed? {
      var t := v.tasks[e.sources[0]].turn;
      assert IsSource(v, e.sources[0], t) && TaskOk(v, v.tasks[e.sources[0]]);
      forall u | IsUser(v', u) && v'.turns[u].ctx == v'.ctx
        ensures |v'.chain| == v'.turns[u].base + (if v'.turns[u].replied || v'.batch == Replying(u) then 1 else 0)
      {
        assert IsUser(v, u);
        OneTurnPerContext(v, u, t);
      }
    } else {
      forall u | IsUser(v', u) && v'.turns[u].ctx == v'.ctx
        ensures |v'.chain| == v'.turns[u].base + (if v'.turns[u].replied || v'.batch == Replying(u) then 1 else 0)
      {
        if u in v.turns && v.turns[u].ctx == v.ctx {
          assert IsUser(v, u);
        }
      }
    }
  }

  /** What a task's standing depends on besides the task itself. */
  ghost predicate TasksCarryOver(v: View, v': View) {
    && v.ctx <= v'.ctx
    && (forall t :: IsUser(v, t) ==>
          && IsUser(v', t)
          && v'.turns[t] == v.turns[t].(interrupted := v'.turns[t].interrupted, replied := v'.turns[t].replied)
          && (v.turns[t].replied ==> v'.turns[t].replied))
    && (v.batch.Interrupting? ==> v'.batch == v.batch || v.ctx < v'.ctx)
  }

  lemma TaskCarriesOver(v: View, v': View, task: TaskView)
    requires TaskOk(v, task) && BatchOk(v) && TasksCarryOver(v, v')
    requires v'.turns[task.turn].interrupted == v.turns[task.turn].interrupted || task.status !in {Queued, Running}
    ensures TaskOk(v', task)
  {}

  lemma TasksCarryOverKeeps(v: View, e: EventBody)
    requires BatchOk(v) && v.pref > 0 && Allowed(v, e)
    ensures TasksCarryOver(v, Apply(v, e))
  {
    TurnsPersistKeeps(v, e);
  }

  lemma TasksCarriedOver(v: View, e: EventBody)
    requires TasksOk(v) && BatchOk(v) && v.pref > 0 && Allowed(v, e)
    ensures forall id :: id in v.tasks ==> TaskOk(Apply(v, e), v.tasks[id])
  {
    TasksCarryOverKeeps(v, e);
    forall id | id in v.tasks ensures TaskOk(Apply(v, e), v.tasks[id]) {
      TaskCarriesOver(v, Apply(v, e), v.tasks[id]);
    }
  }

  lemma QueuedTaskOk(v: View, e: EventBody)
    requires e.TaskQueued? && TurnsOk(v) && BaseOk(v) && v.pref > 0 && Allowed(v, e)
    ensures TaskOk(Apply(v, e), Apply(v, e).tasks[e.task])
  {
    assert IsUser(v, e.turn);
  }

  lemma MovedTaskOk(v: View, e: EventBody)
    requires e.TaskMoved? && v.pref > 0 && Allowed(v, e) && TaskOk(v, v.tasks[e.task])
    ensures TaskOk(Apply(v, e), Apply(v, e).tasks[e.task])
  {}

  lemma TasksOkKeeps(v: View, e: EventBody)
    requires Sound(v) && v.pref > 0 && Allowed(v, e)
    ensures TasksOk(Apply(v, e))
  {
    TasksCarriedOver(v, e);
    if e.TaskQueued? {
      QueuedTaskOk(v, e);
    } else if e.TaskMoved? {
      MovedTaskOk(v, e);
    }
  }

  lemma ChainOkKeeps(v: View, e: EventBody)
    requires Sound(v) && v.pref > 0 && Allowed(v, e)
    ensures ChainOk(Apply(v, e))
  {
    var v' := Apply(v, e);
    if e.ItineraryConfirmed? {
      LastLinkIsOlder(v, e.sources[0]);
    }
    forall k | 0 <= k < |v'.chain| ensures LinkOk(v', k) {
      if k < |v.chain| {
        assert LinkOk(v, k);
      }
    }
  }

  /** A source that is not replied to yet belongs to a newer context than the confirmed version it will replace. */
  lemma LastLinkIsOlder(v: View, id: TaskId)
    requires Sound(v) && id in v.tasks
    requires IsSource(v, id, v.tasks[id].turn) && !v.turns[v.tasks[id].turn].replied && v.batch == Idle
    ensures v.chain != [] ==> v.chain[|v.chain| - 1].ctx < v.ctx
  {
    var t := v.tasks[id].turn;
    assert TaskOk(v, v.tasks[id]);
    if v.chain != [] {
      var last := v.chain[|v.chain| - 1];
      assert LinkOk(v, |v.chain| - 1);
      var s := last.sources[0];
      assert s in last.sources && TaskOk(v, v.tasks[s]);
      assert |v.chain| == v.turns[t].base;
      if last.ctx == v.ctx {
        OneTurnPerContext(v, v.tasks[s].turn, t);
      }
    }
  }

  lemma BatchOkKeeps(v: View, e: EventBody)
    requires Sound(v) && v.pref > 0 && Allowed(v, e)
    ensures BatchOk(Apply(v, e))
  {
    if e.TaskMoved? {
      assert TaskOk(v, v.tasks[e.task]);
    } else if e.ItineraryConfirmed? {
      assert IsSource(v, e.sources[0], v.tasks[e.sources[0]].turn);
      assert TaskOk(v, v.tasks[e.sources[0]]);
    }
  }

  lemma SoundKeeps(v: View, e: EventBody)
    requires Sound(v) && (v.pref == 0 ==> v == EMPTY) && Allowed(v, e)
    ensures Sound(Apply(v, e)) && Apply(v, e).pref > 0
  {
    if v.pref > 0 {
      GapFreeKeeps(v, e);
      OrderedKeeps(v, e);
      TurnsOkKeeps(v, e);
      BaseOkKeeps(v, e);
      TasksOkKeeps(v, e);
      ChainOkKeeps(v, e);
      BatchOkKeeps(v, e);
    }
  }

  lemma {:induction false} LegalIsSound(log: seq<EventBody>)
    requires Legal(log)
    ensures Sound(Fold(log))
    ensures if log == [] then Fold(log) == EMPTY else Fold(log).pref > 0
  {
    if log != [] {
      LegalIsSound(log[..|log| - 1]);
      SoundKeeps(Fold(log[..|log| - 1]), log[|log| - 1]);
    }
  }
}
