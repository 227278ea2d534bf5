/** What every legal event log promises, in terms that can be read off the log without folding it. */
module LogTheorems {
  import opened Rows
  import opened History

  // ---------- Counting, independently of the fold ----------

  predicate Bumps(e: EventBody) {
    e.TurnFinalized? || e.PreferenceUpdated? || e.InterruptAccepted?
  }

  /** How many events of the log advance the context version. */
  function BumpCount(log: seq<EventBody>): nat {
    if log == [] then 0
    else BumpCount(log[..|log| - 1]) + if Bumps(log[|log| - 1]) then 1 else 0
  }

  function PatchCount(log: seq<EventBody>): nat {
    if log == [] then 0
    else PatchCount(log[..|log| - 1]) + if log[|log| - 1].PreferenceUpdated? then 1 else 0
  }

  /** The status named by the last lifecycle event of the task. */
  function LastStatus(log: seq<EventBody>, id: TaskId): Option<TaskStatus> {
    if log == [] then None
    else
      match log[|log| - 1]
      case TaskQueued(t, _, _, _, _, _) => if t == id then Some(Queued) else LastStatus(log[..|log| - 1], id)
      case TaskMoved(t, to, _, _) => if t == id then Some(to) else LastStatus(log[..|log| - 1], id)
      case _ => LastStatus(log[..|log| - 1], id)
  }

  function MoveCount(log: seq<EventBody>, id: TaskId): nat {
    if log == [] then 0
    else
      MoveCount(log[..|log| - 1], id)
      + if log[|log| - 1].TaskMoved? && log[|log| - 1].task == id then 1 else 0
  }

  lemma Started(log: seq<EventBody>)
    requires Legal(log)
    ensures if log == [] then Fold(log) == EMPTY else Fold(log).pref > 0
  {
    LegalIsSound(log);
  }

  /** The versions a session stands at are counts of its events. */
  lemma {:induction false} FoldCounts(log: seq<EventBody>)
    requires Legal(log)
    ensures Fold(log).ctx == BumpCount(log)
    ensures Fold(log).pref == if log == [] then 0 else 1 + PatchCount(log)
  {
    if log != [] {
      FoldCounts(log[..|log| - 1]);
      Started(log[..|log| - 1]);
    }
  }

  predicate IsLifecycleOf(e: EventBody, id: TaskId) {
    (e.TaskQueued? && e.task == id) || (e.TaskMoved? && e.task == id)
  }

  predicate Rises(a: TaskStatus, b: TaskStatus) {
    a == b || Rank(a) < Rank(b)
  }

  /** `succeeded`, `failed` and `discarded` are final; `cancelled` can only become `discarded`. */
  predicate StaysFinal(a: TaskStatus, b: TaskStatus) {
    && (a in {Succeeded, Failed, Discarded} ==> b == a)
    && (a == Cancelled ==> b in {Cancelled, Discarded})
  }

  /** One event: a task changes only by its own lifecycle event, and then its rank rises. */
  lemma TaskStep(v: View, e: EventBody, id: TaskId)
    requires (v.pref == 0 ==> v == EMPTY) && Allowed(v, e)
    ensures id in Apply(v, e).tasks <==> id in v.tasks || IsLifecycleOf(e, id)
    ensures e.TaskQueued? && e.task == id ==> id !in v.tasks && Apply(v, e).tasks[id].status == Queued
    ensures e.TaskMoved? && e.task == id ==>
              id in v.tasks && Apply(v, e).tasks[id] == v.tasks[id].(status := e.to)
              && Rank(v.tasks[id].status) < Rank(e.to) && StaysFinal(v.tasks[id].status, e.to)
    ensures id in v.tasks && !IsLifecycleOf(e, id) ==> Apply(v, e).tasks[id] == v.tasks[id]
  {}

  /** A task is where its last lifecycle event put it, and each of its moves raised its rank. */
  lemma {:induction false} FoldStatus(log: seq<EventBody>, id: TaskId)
    requires Legal(log)
    ensures id in Fold(log).tasks <==> LastStatus(log, id).Some?
    ensures id in Fold(log).tasks ==> LastStatus(log, id) == Some(Fold(log).tasks[id].status)
    ensures MoveCount(log, id) <= if id in Fold(log).tasks then Rank(Fold(log).tasks[id].status) else 0
  {
    if log != [] {
      FoldStatus(log[..|log| - 1], id);
      Started(log[..|log| - 1]);
      TaskStep(Fold(log[..|log| - 1]), log[|log| - 1], id);
    }
  }

  /** No task changes its status more than four times. */
  lemma FourMoves(log: seq<EventBody>, id: TaskId)
    requires Legal(log)
    ensures MoveCount(log, id) <= 4
  {
    FoldStatus(log, id);
  }

  // ---------- Freshness ----------

  /** The event carries the versions that the events before it add up to. */
  ghost predicate IsFresh(log: seq<EventBody>, k: nat)
    requires k < |log|
  {
    var ctx, pref := BumpCount(log[..k]), 1 + PatchCount(log[..k]);
    match log[k]
    case SessionCreated(c, p) => k == 0 && c == 0 && p == 1
    case TurnFinalized(_, c, p) => c == ctx + 1 && p == pref
    case PreferenceUpdated(c, p) => c == ctx + 1 && p == pref + 1
    case InterruptAccepted(_, c, _, _, _) => c == ctx + 1
    case TaskQueued(_, _, c, p, _, _) => c == ctx && p == pref
    case TaskMoved(_, to, _, c) => to == Succeeded ==> c == Some(ctx)
    case ItineraryConfirmed(_, c, p, _, _) => c == ctx && p == pref
    case ReplyCreated(_, _, c, context) => c == ctx && context.ctx == ctx && context.pref == pref
  }

  /** Whatever is planned, accepted or confirmed carries exactly the versions of the log before it. */
  lemma Freshness(log: seq<EventBody>, k: nat)
    requires Legal(log) && k < |log|
    ensures IsFresh(log, k)
  {
    LegalPrefix(log, k);
    LegalIsSound(log[..k]);
    FoldCounts(log[..k]);
  }

  // ---------- Statuses only rise ----------

  lemma {:induction false} StatusOnlyRises(log: seq<EventBody>, k: nat, id: TaskId)
    requires Legal(log) && k <= |log| && id in Fold(log[..k]).tasks
    ensures id in Fold(log).tasks
    ensures Rises(Fold(log[..k]).tasks[id].status, Fold(log).tasks[id].status)
    ensures StaysFinal(Fold(log[..k]).tasks[id].status, Fold(log).tasks[id].status)
    ensures Fold(log).tasks[id] == Fold(log[..k]).tasks[id].(status := Fold(log).tasks[id].status)
  {
    if k == |log| {
      assert log[..k] == log;
    } else {
      var n := |log| - 1;
      assert log[..n][..k] == log[..k];
      StatusOnlyRises(log[..n], k, id);
      Started(log[..n]);
      TaskStep(Fold(log[..n]), log[n], id);
    }
  }

  // ---------- Interrupts ----------

  /** The event lets work of the turn begin or take effect. */
  ghost predicate WorksOn(v: View, e: EventBody, turn: TurnId) {
    match e
    case TaskQueued(_, t, _, _, _, _) => t == turn
    case TaskMoved(id, to, _, _) =>
      id in v.tasks && v.tasks[id].turn == turn && to in {Running, CancelRequested, Succeeded, Failed}
    case ItineraryConfirmed(_, _, _, sources, _) => exists id :: id in sources && id in v.tasks && v.tasks[id].turn == turn
    case ReplyCreated(_, parent, _, _) => parent == turn
    case InterruptAccepted(t, _, _, _, _) => t == turn
    case _ => false
  }

  lemma InterruptedStep(v: View, e: EventBody, t: TurnId)
    requires v.pref > 0 && Allowed(v, e)
    requires (t in v.turns && v.turns[t].interrupted) || (e.InterruptAccepted? && e.turn == t)
    ensures t in Apply(v, e).turns && Apply(v, e).turns[t].interrupted
  {}

  lemma {:induction false} InterruptedStays(log: seq<EventBody>, i: nat)
    requires Legal(log) && i < |log| && log[i].InterruptAccepted?
    ensures log[i].turn in Fold(log).turns && Fold(log).turns[log[i].turn].interrupted
  {
    var n := |log| - 1;
    Started(log[..n]);
    if i < n {
      InterruptedStays(log[..n], i);
    }
    InterruptedStep(Fold(log[..n]), log[n], log[i].turn);
  }

  lemma NothingForInterrupted(v: View, e: EventBody, turn: TurnId)
    requires Sound(v) && v.pref > 0 && Allowed(v, e)
    requires turn in v.turns && v.turns[turn].interrupted
    ensures !WorksOn(v, e, turn)
  {
    if e.TaskMoved? {
      assert TaskOk(v, v.tasks[e.task]);
    } else if e.ItineraryConfirmed? {
      forall id | id in e.sources ensures id in v.tasks && v.tasks[id].turn != turn {
        assert IsSource(v, id, v.tasks[e.sources[0]].turn);
        assert TaskOk(v, v.tasks[id]);
      }
    }
  }

  /** After an accepted interrupt the log shows no further work on its turn: nothing is queued, runs, succeeds,
    is confirmed or replied. */
  lemma InterruptSafety(log: seq<EventBody>, i: nat, j: nat)
    requires Legal(log) && i < j < |log| && log[i].InterruptAccepted?
    ensures !WorksOn(Fold(log[..j]), log[j], log[i].turn)
  {
    LegalPrefix(log, j);
    LegalIsSound(log[..j]);
    InterruptedStays(log[..j], i);
    NothingForInterrupted(Fold(log[..j]), log[j], log[i].turn);
  }

  // ---------- Succeeded tasks ----------

  lemma MovedTaskIsKnown(log: seq<EventBody>, k: nat)
    requires Legal(log) && k < |log| && log[k].TaskMoved?
    ensures log[k].task in Fold(log[..k + 1]).tasks && Fold(log[..k + 1]).tasks[log[k].task].status == log[k].to
  {
    LegalPrefix(log, k);
    Started(log[..k]);
    TaskStep(Fold(log[..k]), log[k], log[k].task);
  }

  /** No event moves a task away from `succeeded`, `failed` or `discarded`. */
  lemma FinalEvent(log: seq<EventBody>, i: nat, j: nat)
    requires Legal(log) && i < j < |log| && log[i].TaskMoved? && log[i].to in {Succeeded, Failed, Discarded}
    ensures !(log[j].TaskMoved? && log[j].task == log[i].task)
  {
    MovedTaskIsKnown(log, i);
    LegalPrefix(log, j);
    Started(log[..j]);
    assert log[..j][..i + 1] == log[..i + 1];
    StatusOnlyRises(log[..j], i + 1, log[i].task);
    TaskStep(Fold(log[..j]), log[j], log[i].task);
  }
}
