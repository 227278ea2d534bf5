/** Several outbox publishers at once, any of which may crash between any two of its writes.

  A pass takes any list of pending rows, so the results do not rest on the order in which rows become visible.
 */
module Publishers {
  import opened Rows
  import opened Outbox

  /** What the next write of a pass is, for the row at `next`. */
  datatype Stage = Sending | Announcing | Marking
  datatype Pass = Pass(
    batch: seq<nat>, next: nat, stage: Stage, published: nat, failed: nat,
    commitFaults: nat,    // history: marking transactions that raised at their commit
    skipped: nat)         // history: rows that another publisher had marked by then

  type PublisherId = nat

  datatype System = System(rows: seq<Row>, work: seq<Work>, events: seq<nat>, passes: map<PublisherId, Pass>)

  datatype Step =
    | Insert(session: nat, body: EventBody)
    | Begin(pid: PublisherId, batch: seq<nat>)
    | Send(pid: PublisherId, fault: Fault)
    | Announce(pid: PublisherId, fault: Fault)
    | MarkRow(pid: PublisherId, fault: Fault)
    | Crash(pid: PublisherId)

  const START := System([], [], [], map[])

  function Continue(s: System, pid: PublisherId, pass: Pass): System {
    s.(passes := s.passes[pid := pass])
  }

  /** The pass moves on to its next row. */
  function Next(pass: Pass, failed: bool): Pass {
    pass.(next := pass.next + 1, stage := Sending, failed := pass.failed + if failed then 1 else 0)
  }

  predicate IsAt(s: System, pid: PublisherId, stage: Stage) {
    && pid in s.passes && s.passes[pid].stage == stage
    && s.passes[pid].next < |s.passes[pid].batch| && s.passes[pid].batch[s.passes[pid].next] < |s.rows|
  }

  function RowOf(s: System, pid: PublisherId): nat
    requires pid in s.passes && s.passes[pid].next < |s.passes[pid].batch|
  {
    s.passes[pid].batch[s.passes[pid].next]
  }

  function DoSend(s: System, pid: PublisherId, fault: Fault): System
    requires IsAt(s, pid, Sending)
  {
    var pass, message := s.passes[pid], WorkOf(s.rows[RowOf(s, pid)]);
    if fault == WorkFails then Continue(s, pid, Next(pass, true))
    else
      var sent := if message.Some? then s.(work := s.work + [message.value]) else s;
      Continue(sent, pid, if fault == WorkUnacknowledged then Next(pass, true) else pass.(stage := Announcing))
  }

  function DoAnnounce(s: System, pid: PublisherId, fault: Fault): System
    requires IsAt(s, pid, Announcing)
  {
    var pass := s.passes[pid];
    if fault == EventFails then Continue(s, pid, Next(pass, true))
    else
      Continue(s.(events := s.events + [RowOf(s, pid)]), pid,
               if fault == EventUnacknowledged then Next(pass, true) else pass.(stage := Marking))
  }

  /** The marking transaction: a row that another publisher has marked meanwhile is left alone and not counted. */
  function DoMark(s: System, pid: PublisherId, fault: Fault): System
    requires IsAt(s, pid, Marking)
  {
    var pass := s.passes[pid];
    var id := RowOf(s, pid);
    if fault == LockFails then Continue(s, pid, Next(pass, true))
    else
      var late := IsCommitFault(fault);
      var counted := pass.(published := pass.published + if s.rows[id].published then 0 else 1,
                           skipped := pass.skipped + if s.rows[id].published then 1 else 0,
                           commitFaults := pass.commitFaults + if late then 1 else 0);
      var marked := if fault == CommitFails then s else s.(rows := Mark(s.rows, id));
      Continue(marked, pid, Next(counted, late))
  }

  function Do(s: System, step: Step): System {
    match step
    case Insert(session, body) => s.(rows := s.rows + [Row(session, body, false)])
    case Begin(pid, batch) =>
      if pid in s.passes || exists i :: 0 <= i < |batch| && (batch[i] >= |s.rows| || s.rows[batch[i]].published) then s
      else Continue(s, pid, Pass(batch, 0, Sending, 0, 0, 0, 0))
    case Send(pid, fault) => if IsAt(s, pid, Sending) then DoSend(s, pid, fault) else s
    case Announce(pid, fault) => if IsAt(s, pid, Announcing) then DoAnnounce(s, pid, fault) else s
    case MarkRow(pid, fault) => if IsAt(s, pid, Marking) then DoMark(s, pid, fault) else s
    case Crash(pid) => s.(passes := s.passes - {pid})
  }

  function After(s: System, steps: seq<Step>): System {
    if steps == [] then s else Do(After(s, steps[..|steps| - 1]), steps[|steps| - 1])
  }

  // ---------- What every run keeps ----------

  ghost predicate PassOk(s: System, pass: Pass) {
    && pass.next <= |pass.batch|
    && pass.published + pass.failed + pass.skipped == pass.next + pass.commitFaults
    && (forall i :: 0 <= i < |pass.batch| ==> pass.batch[i] < |s.rows|)
    && (pass.stage != Sending ==> pass.next < |pass.batch| && HasWork(s.rows[pass.batch[pass.next]], s.work))
    && (pass.stage == Marking ==>
          pass.next < |pass.batch|
          && Delivered(s.rows[pass.batch[pass.next]], pass.batch[pass.next], s.work, s.events))
  }

  ghost predicate SystemInv(s: System) {
    && Conserved(s.rows, s.work, s.events)
    && forall pid :: pid in s.passes ==> PassOk(s, s.passes[pid])
  }

  /** Rows and messages are never lost: rows keep their content, marks are never taken back, streams only grow. */
  ghost predicate Extends(s: System, s': System) {
    && |s.rows| <= |s'.rows|
    && (forall i :: 0 <= i < |s.rows| ==>
          s'.rows[i].session == s.rows[i].session && s'.rows[i].body == s.rows[i].body
          && (s.rows[i].published ==> s'.rows[i].published))
    && s.work <= s'.work && s.events <= s'.events
  }

  lemma PassCarries(s: System, s': System, pass: Pass)
    requires PassOk(s, pass) && Extends(s, s')
    ensures PassOk(s', pass)
  {
    if pass.stage != Sending {
      var id := pass.batch[pass.next];
      WorkStays(s.rows[id], s'.rows[id], s.work, s'.work);
    }
  }

  /** A step of one publisher leaves the others' standing as it was. */
  lemma OthersCarry(s: System, s': System, pid: PublisherId)
    requires SystemInv(s) && Extends(s, s') && Conserved(s'.rows, s'.work, s'.events)
    requires forall p :: p in s'.passes && p != pid ==> p in s.passes && s'.passes[p] == s.passes[p]
    requires pid in s'.passes ==> PassOk(s', s'.passes[pid])
    ensures SystemInv(s')
  {
    forall p | p in s'.passes ensures PassOk(s', s'.passes[p]) {
      if p != pid {
        PassCarries(s, s', s.passes[p]);
      }
    }
  }

  lemma InsertKeeps(rows: seq<Row>, work: seq<Work>, events: seq<nat>, row: Row)
    requires Conserved(rows, work, events) && !row.published
    ensures Conserved(rows + [row], work, events)
  {
    assert Obeys(NothingLost, rows, work, events) && Obeys(NothingInvented, rows, work, events);
    forall m | m in work ensures IsCalledFor(rows + [row], m) {
      var i :| 0 <= i < |rows| && AsksFor(rows[i], m);
      assert (rows + [row])[i] == rows[i];
    }
    forall law ensures Obeys(law, rows + [row], work, events) {
      assert Obeys(law, rows, work, events);
    }
  }

  lemma SendStepKeeps(s: System, pid: PublisherId, fault: Fault)
    requires SystemInv(s) && IsAt(s, pid, Sending)
    ensures SystemInv(DoSend(s, pid, fault))
  {
    var id := RowOf(s, pid);
    if WorkOf(s.rows[id]).Some? {
      SendKeeps(s.rows, s.work, s.events, id);
    } else {
      NoWorkIsDone(s.rows[id], s.work);
    }
    assert PassOk(s, s.passes[pid]);
    OthersCarry(s, DoSend(s, pid, fault), pid);
  }

  lemma AnnounceStepKeeps(s: System, pid: PublisherId, fault: Fault)
    requires SystemInv(s) && IsAt(s, pid, Announcing)
    ensures SystemInv(DoAnnounce(s, pid, fault))
  {
    AnnounceKeeps(s.rows, s.work, s.events, RowOf(s, pid));
    assert PassOk(s, s.passes[pid]);
    OthersCarry(s, DoAnnounce(s, pid, fault), pid);
  }

  lemma MarkStepKeeps(s: System, pid: PublisherId, fault: Fault)
    requires SystemInv(s) && IsAt(s, pid, Marking)
    ensures SystemInv(DoMark(s, pid, fault))
  {
    assert PassOk(s, s.passes[pid]);
    MarkKeeps(s.rows, s.work, s.events, RowOf(s, pid));
    OthersCarry(s, DoMark(s, pid, fault), pid);
  }

  lemma StepKeeps(s: System, step: Step)
    requires SystemInv(s)
    ensures SystemInv(Do(s, step))
  {
    match step
    case Insert(session, body) =>
      InsertKeeps(s.rows, s.work, s.events, Row(session, body, false));
      forall p | p in s.passes ensures PassOk(Do(s, step), s.passes[p]) {
        PassCarries(s, Do(s, step), s.passes[p]);
      }
    case Begin(pid, batch) => OthersCarry(s, Do(s, step), pid);
    case Send(pid, fault) => if IsAt(s, pid, Sending) { SendStepKeeps(s, pid, fault); }
    case Announce(pid, fault) => if IsAt(s, pid, Announcing) { AnnounceStepKeeps(s, pid, fault); }
    case MarkRow(pid, fault) => if IsAt(s, pid, Marking) { MarkStepKeeps(s, pid, fault); }
    case Crash(pid) => OthersCarry(s, Do(s, step), pid);
  }

  lemma {:induction false} RunsKeep(steps: seq<Step>)
    ensures SystemInv(After(START, steps))
  {
    if steps == [] {
      forall law ensures Obeys(law, [], [], []) {}
    } else {
      RunsKeep(steps[..|steps| - 1]);
      StepKeeps(After(START, steps[..|steps| - 1]), steps[|steps| - 1]);
    }
  }

  /** What a row must have led to: a plan message for a finalized turn, a task message for a queued task, and a compose
    message for a success with a turn and a context. */
  predicate IsSentOn(row: Row, work: seq<Work>) {
    match row.body
    case TurnFinalized(turn, ctx, _) => PlanWork(row.session, turn, ctx) in work
    case TaskQueued(task, _, _, _, _, _) => TaskWork(task) in work
    case TaskMoved(task, to, turn, ctx) =>
      to == Succeeded && turn.Some? && ctx.Some? ==> ComposeWork(task, row.session, turn.value, ctx.value) in work
    case _ => true
  }

  lemma WorkIsSentOn(row: Row, work: seq<Work>)
    requires HasWork(row, work)
    ensures IsSentOn(row, work)
  {
    match row.body
    case TurnFinalized(turn, ctx, _) => assert AsksFor(row, PlanWork(row.session, turn, ctx));
    case TaskQueued(task, _, _, _, _, _) => assert AsksFor(row, TaskWork(task));
    case TaskMoved(task, Succeeded, Some(turn), Some(ctx)) => assert AsksFor(row, ComposeWork(task, row.session, turn, ctx));
    case _ =>
  }

  /** Whatever crashes and however publishers interleave, a row marked published is in the event stream; a row in the
    event stream has its work message in the work streams already, so a client never hears of an event whose work
    could still be lost; and the streams hold nothing that no row called for. */
  lemma {:induction false} PublishedIsDelivered(steps: seq<Step>)
    ensures var s := After(START, steps);
            && (forall i :: 0 <= i < |s.rows| && s.rows[i].published ==> i in s.events)
            && (forall i :: i in s.events ==> i < |s.rows| && IsSentOn(s.rows[i], s.work))
            && (forall m :: m in s.work ==> IsCalledFor(s.rows, m))
  {
    RunsKeep(steps);
    var s := After(START, steps);
    assert Obeys(NothingLost, s.rows, s.work, s.events) && Obeys(NothingInvented, s.rows, s.work, s.events);
    assert Obeys(WorkFirst, s.rows, s.work, s.events);
    forall i | i in s.events ensures i < |s.rows| && IsSentOn(s.rows[i], s.work) {
      WorkIsSentOn(s.rows[i], s.work);
    }
  }

  /** A publisher that crashes leaves what it has written, and its place in the batch is lost. */
  lemma CrashKeepsWrites(s: System, pid: PublisherId)
    ensures Do(s, Crash(pid)) == s.(passes := s.passes - {pid})
  {}

  lemma ThreeSteps(s: System, a: Step, b: Step, c: Step)
    ensures After(s, [a, b, c]) == Do(Do(Do(s, a), b), c)
  {
    assert After(s, [a]) == Do(s, a) by { assert [a][..0] == []; }
    assert After(s, [a, b]) == Do(Do(s, a), b) by { assert [a, b][..1] == [a]; }
    assert [a, b, c][..2] == [a, b];
  }

  /** A pass over any pending rows begins at the first of them. */
  lemma PassBegins(s: System, pid: PublisherId, batch: seq<nat>)
    requires pid !in s.passes && batch != []
    requires forall i :: 0 <= i < |batch| ==> batch[i] < |s.rows| && !s.rows[batch[i]].published
    ensures var s' := Do(s, Begin(pid, batch));
            && s' == s.(passes := s'.passes) && IsAt(s', pid, Sending) && RowOf(s', pid) == batch[0]
            && forall q :: q in s.passes ==> q in s'.passes && s'.passes[q] == s.passes[q]
  {}

  /** A publisher that nothing disturbs publishes the row it has reached: message, event and mark, and goes on. */
  lemma RowIsPublished(s: System, pid: PublisherId)
    requires IsAt(s, pid, Sending)
    ensures var id, s' := RowOf(s, pid), After(s, [Send(pid, NoFault), Announce(pid, NoFault), MarkRow(pid, NoFault)]);
            && s'.rows == s.rows[id := s.rows[id].(published := true)]
            && IsSentOn(s.rows[id], s'.work) && s'.events == s.events + [id]
            && (s'.work == s.work || exists m :: AsksFor(s.rows[id], m) && s'.work == s.work + [m])
            && pid in s'.passes && s'.passes[pid].next == s.passes[pid].next + 1 && s'.passes[pid].stage == Sending
            && s'.passes[pid].failed == s.passes[pid].failed
            && s'.passes[pid].published == s.passes[pid].published + if s.rows[id].published then 0 else 1
  {
    ThreeSteps(s, Send(pid, NoFault), Announce(pid, NoFault), MarkRow(pid, NoFault));
    var row := s.rows[RowOf(s, pid)];
    if WorkOf(row).Some? {
      WorkIsAskedFor(row, WorkOf(row).value);
    }
  }

  /** No row, mark or message is lost by anything that happens later. */
  lemma {:induction false} NothingIsLost(s: System, steps: seq<Step>)
    ensures Extends(s, After(s, steps))
  {
    if steps != [] {
      NothingIsLost(s, steps[..|steps| - 1]);
    }
  }

  /** At any point of any pass, the rows it has handled are the published, the failed and those that others marked
    first, where a failed commit counts twice.  So its counters stay within the rows it has handled exactly when no
    more of its commits failed than rows were marked by others. */
  lemma {:induction false} CountersAddUp(steps: seq<Step>, pid: PublisherId)
    requires pid in After(START, steps).passes
    ensures var p := After(START, steps).passes[pid];
            && p.next <= |p.batch| && p.published + p.failed + p.skipped == p.next + p.commitFaults
            && (p.published + p.failed <= p.next <==> p.commitFaults <= p.skipped)
  {
    RunsKeep(steps);
    assert PassOk(After(START, steps), After(START, steps).passes[pid]);
  }
}
