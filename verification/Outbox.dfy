/** The publisher of backend/app/outbox.py: one pass over the pending rows, and how many passes drain them.

  Rows are kept in the order of their identifiers.  Redis and the marking transaction may fail at any row; a fault
  says at which of the three writes.  Another publisher may publish the same row meanwhile.
 */
module Outbox {
  import opened Rows

  datatype Row = Row(session: nat, body: EventBody, published: bool)

  /** The work messages of the three streams. */
  datatype Work =
    | PlanWork(session: nat, turn: TurnId, ctx: nat)
    | TaskWork(task: TaskId)
    | ComposeWork(task: TaskId, session: nat, turn: TurnId, ctx: nat)

  /** Which work message an event calls for; a success without a turn or a context calls for none. */
  function WorkOf(row: Row): Option<Work> {
    match row.body
    case TurnFinalized(t, c, _) => Some(PlanWork(row.session, t, c))
    case TaskQueued(id, _, _, _, _, _) => Some(TaskWork(id))
    case TaskMoved(id, Succeeded, Some(t), Some(c)) => Some(ComposeWork(id, row.session, t, c))
    case _ => None
  }

  /** Where publishing a row may fail.  An unacknowledged write is done all the same; a commit fails after the loop
    has counted the row. */
  datatype Fault =
    | NoFault
    | WorkFails | WorkUnacknowledged
    | EventFails | EventUnacknowledged
    | LockFails | CommitFails | CommitUnacknowledged

  /** What happens to one row of a pass.  `rival`: another publisher has published it by the time it is locked. */
  datatype Round = Round(fault: Fault, rival: bool)

  datatype PublishResult = PublishResult(attempted: nat, published: nat, failed: nat)

  // ---------- Pending rows ----------

  /** Positions of the unpublished rows, in order. */
  function Pending(rows: seq<Row>): seq<nat> {
    if rows == [] then []
    else
      var n := |rows| - 1;
      Pending(rows[..n]) + if rows[n].published then [] else [n]
  }

  ghost predicate IsBatch(rows: seq<Row>, batch: seq<nat>) {
    && (forall i, j :: 0 <= i < j < |batch| ==> batch[i] < batch[j])
    && (forall i :: 0 <= i < |batch| ==> batch[i] < |rows| && !rows[batch[i]].published)
  }

  lemma BatchExtends(rows: seq<Row>, n: nat, before: seq<nat>)
    requires n < |rows| && IsBatch(rows[..n], before)
    ensures IsBatch(rows, before)
    ensures !rows[n].published ==> IsBatch(rows, before + [n])
  {
    assert forall k :: 0 <= k < |before| ==> before[k] < n && rows[..n][before[k]] == rows[before[k]];
  }

  lemma {:induction false} PendingIsOrdered(rows: seq<Row>)
    ensures IsBatch(rows, Pending(rows))
  {
    if rows != [] {
      var n := |rows| - 1;
      PendingIsOrdered(rows[..n]);
      BatchExtends(rows, n, Pending(rows[..n]));
      assert Pending(rows) == Pending(rows[..n]) + if rows[n].published then [] else [n];
    }
  }

  /** The pending rows are all unpublished rows, each once, oldest first. */
  lemma {:induction false} PendingRows(rows: seq<Row>)
    ensures IsBatch(rows, Pending(rows))
    ensures forall i :: 0 <= i < |rows| && !rows[i].published ==> i in Pending(rows)
  {
    PendingIsOrdered(rows);
    if rows != [] {
      var n := |rows| - 1;
      PendingRows(rows[..n]);
      forall i | 0 <= i < |rows| && !rows[i].published ensures i in Pending(rows) {
        if i < n {
          assert rows[..n][i] == rows[i];
        }
      }
    }
  }

  function Take(ids: seq<nat>, limit: int): seq<nat> {
    if limit < 1 then [] else if |ids| <= limit then ids else ids[..limit]
  }

  function Mark(rows: seq<Row>, id: nat): seq<Row> {
    if id < |rows| then rows[id := rows[id].(published := true)] else rows
  }

  predicate FailsToSend(fault: Fault) {
    fault.WorkFails? || fault.WorkUnacknowledged? || fault.EventFails? || fault.EventUnacknowledged?
  }

  predicate IsMarked(round: Round) {
    round.rival || round.fault.NoFault? || round.fault.CommitUnacknowledged?
  }

  /** The row is found under its lock. */
  predicate IsLocked(fault: Fault) {
    fault.NoFault? || fault.CommitFails? || fault.CommitUnacknowledged?
  }

  const UNDISTURBED: nat -> Round := _ => Round(NoFault, false)

  /** The rows after the first n rounds of a pass. */
  function Marked(rows: seq<Row>, batch: seq<nat>, rounds: nat -> Round, n: nat): seq<Row>
    requires n <= |batch|
  {
    if n == 0 then rows
    else
      var before := Marked(rows, batch, rounds, n - 1);
      if IsMarked(rounds(n - 1)) then Mark(before, batch[n - 1]) else before
  }

  /** How many of the first n rounds count their row as published: the counter is raised under the lock, before the
    commit, unless another publisher has marked the row. */
  function RoundsCounted(rounds: nat -> Round, n: nat): nat {
    if n == 0 then 0
    else RoundsCounted(rounds, n - 1) + if IsLocked(rounds(n - 1).fault) && !rounds(n - 1).rival then 1 else 0
  }

  function RoundsFailed(rounds: nat -> Round, n: nat): nat {
    if n == 0 then 0 else RoundsFailed(rounds, n - 1) + if rounds(n - 1).fault != NoFault then 1 else 0
  }

  /** How many find under the lock that another publisher has marked the row. */
  function RoundsSkipped(rounds: nat -> Round, n: nat): nat {
    if n == 0 then 0
    else RoundsSkipped(rounds, n - 1) + if IsLocked(rounds(n - 1).fault) && rounds(n - 1).rival then 1 else 0
  }

  function RoundsFailingAtCommit(rounds: nat -> Round, n: nat): nat {
    if n == 0 then 0 else RoundsFailingAtCommit(rounds, n - 1) + if IsCommitFault(rounds(n - 1).fault) then 1 else 0
  }

  predicate IsCommitFault(fault: Fault) {
    fault.CommitFails? || fault.CommitUnacknowledged?
  }

  // ---------- Conservation ----------

  /** What a message in the work streams says of the row that it is for. */
  predicate AsksFor(row: Row, message: Work) {
    match message
    case PlanWork(session, turn, ctx) =>
      row.session == session && row.body.TurnFinalized? && row.body.turn == turn && row.body.ctx == ctx
    case TaskWork(task) => row.body.TaskQueued? && row.body.task == task
    case ComposeWork(task, session, turn, ctx) =>
      && row.session == session && row.body.TaskMoved? && row.body.task == task && row.body.to == Succeeded
      && row.body.taskTurn == Some(turn) && row.body.taskCtx == Some(ctx)
  }

  lemma WorkIsAskedFor(row: Row, message: Work)
    ensures AsksFor(row, message) <==> WorkOf(row) == Some(message)
  {}

  ghost predicate HasWork(row: Row, work: seq<Work>) {
    forall m :: AsksFor(row, m) ==> m in work
  }

  ghost predicate Delivered(row: Row, id: nat, work: seq<Work>, events: seq<nat>) {
    id in events && HasWork(row, work)
  }

  predicate IsCalledFor(rows: seq<Row>, message: Work) {
    exists i :: 0 <= i < |rows| && AsksFor(rows[i], message)
  }

  datatype Law = NothingLost | WorkFirst | NothingInvented

  /** A published row is in the event stream; a row in the event stream has its work message, if it calls for one, in
    the work streams; and nothing is in a stream that no row called for. */
  ghost predicate Obeys(law: Law, rows: seq<Row>, work: seq<Work>, events: seq<nat>) {
    match law
    case NothingLost => forall i :: 0 <= i < |rows| && rows[i].published ==> i in events
    case WorkFirst => forall i :: i in events && i < |rows| ==> HasWork(rows[i], work)
    case NothingInvented =>
      && (forall i :: i in events ==> i < |rows|)
      && (forall m :: m in work ==> IsCalledFor(rows, m))
  }

  ghost predicate Conserved(rows: seq<Row>, work: seq<Work>, events: seq<nat>) {
    forall law :: Obeys(law, rows, work, events)
  }

  /** Exactly the rows of the batch that were marked differ, and only in being published. */
  lemma {:induction false} MarkedRows(rows: seq<Row>, batch: seq<nat>, rounds: nat -> Round, n: nat)
    requires IsBatch(rows, batch) && n <= |batch|
    ensures |Marked(rows, batch, rounds, n)| == |rows|
    ensures forall i :: 0 <= i < |rows| && (forall k :: 0 <= k < n ==> batch[k] != i) ==>
              Marked(rows, batch, rounds, n)[i] == rows[i]
    ensures forall k :: 0 <= k < n ==>
              Marked(rows, batch, rounds, n)[batch[k]]
              == if IsMarked(rounds(k)) then rows[batch[k]].(published := true) else rows[batch[k]]
  {
    if n > 0 {
      MarkedRows(rows, batch, rounds, n - 1);
    }
  }

  class Publisher {
    var rows: seq<Row>
    var work: seq<Work>
    var events: seq<nat>

    ghost predicate Valid()
      reads this
    {
      Conserved(rows, work, events)
    }

    constructor ()
      ensures Valid() && rows == [] && work == [] && events == []
    {
      rows, work, events := [], [], [];
      new;
      forall law ensures Obeys(law, rows, work, events) {}
    }

    /** `publish_event`: the work message first, then the session event.  It reports success only after both. */
    method PublishEvent(id: nat, fault: Fault) returns (ok: bool)
      requires Valid() && id < |rows|
      modifies this`work, this`events
      ensures Valid() && old(work) <= work && old(events) <= events
      ensures ok <==> !FailsToSend(fault)
      ensures ok ==> Delivered(rows[id], id, work, events)
    {
      if fault == WorkFails {
        return false;
      }
      var message := WorkOf(rows[id]);
      if message.Some? {
        SendKeeps(rows, work, events, id);
        work := work + [message.value];
      } else {
        NoWorkIsDone(rows[id], work);
      }
      if fault == WorkUnacknowledged || fault == EventFails {
        return false;
      }
      AnnounceKeeps(rows, work, events, id);
      events := events + [id];
      return fault != EventUnacknowledged;
    }

    /** Another publisher publishes the row. */
    method PublishElsewhere(id: nat)
      requires Valid() && id < |rows|
      modifies this
      ensures Valid() && old(work) <= work && old(events) <= events
      ensures rows == Mark(old(rows), id)
    {
      var ok := PublishEvent(id, NoFault);
      MarkKeeps(rows, work, events, id);
      rows := Mark(rows, id);
    }

    /** One round of the loop. */
    method PublishRow(id: nat, round: Round) returns (counted: nat, failed: nat)
      requires Valid() && id < |rows| && !rows[id].published
      modifies this
      ensures Valid() && old(work) <= work && old(events) <= events
      ensures rows == if IsMarked(round) then Mark(old(rows), id) else old(rows)
      ensures counted == if IsLocked(round.fault) && !round.rival then 1 else 0
      ensures failed == if round.fault != NoFault then 1 else 0
    {
      counted, failed := 0, 0;
      var ok := PublishEvent(id, round.fault);
      if round.rival {
        PublishElsewhere(id);
      }
      if !ok || round.fault == LockFails {
        failed := 1;
      } else {
        if !rows[id].published {
          counted := 1;
          if round.fault != CommitFails {
            MarkKeeps(rows, work, events, id);
            rows := Mark(rows, id);
          }
        }
        if round.fault != NoFault {
          failed := 1;
        }
      }
    }

    /** `publish_pending_events`: a row that fails stays pending for the next pass, unless only the answer of its
      commit was lost. */
    method PublishPendingEvents(limit: int, rounds: nat -> Round) returns (r: PublishResult)
      requires Valid()
      modifies this
      ensures Valid() && old(work) <= work && old(events) <= events
      ensures r.attempted == |Take(Pending(old(rows)), limit)|
      ensures rows == Marked(old(rows), Take(Pending(old(rows)), limit), rounds, r.attempted)
      ensures r.published == RoundsCounted(rounds, r.attempted)
      ensures r.failed == RoundsFailed(rounds, r.attempted)
    {
      if limit < 1 {
        return PublishResult(0, 0, 0);
      }
      var batch := Take(Pending(rows), limit);
      PendingIsBatch(rows, limit);
      var published, failed := 0, 0;
      for i := 0 to |batch|
        invariant Valid() && old(work) <= work && old(events) <= events
        invariant rows == Marked(old(rows), batch, rounds, i)
        invariant published == RoundsCounted(rounds, i) && failed == RoundsFailed(rounds, i)
      {
        NextIsPending(old(rows), batch, rounds, i);
        var counted, missed := PublishRow(batch[i], rounds(i));
        published := published + counted;
        failed := failed + missed;
      }
      return PublishResult(|batch|, published, failed);
    }
  }

  lemma PendingIsBatch(rows: seq<Row>, limit: int)
    ensures IsBatch(rows, Take(Pending(rows), limit))
  {
    PendingRows(rows);
  }

  /** No earlier round of the pass has touched the row of the next one. */
  lemma NextIsPending(rows: seq<Row>, batch: seq<nat>, rounds: nat -> Round, i: nat)
    requires IsBatch(rows, batch) && i < |batch|
    ensures |Marked(rows, batch, rounds, i)| == |rows| && !Marked(rows, batch, rounds, i)[batch[i]].published
  {
    MarkedRows(rows, batch, rounds, i);
  }

  /** The attempted rows are the published, the failed and those that others had marked, where each failed commit is
    counted once more; so published and failed stay within attempted exactly when the failed commits are no more
    than the rows that others had marked. */
  lemma {:induction false} CountersAddUp(rounds: nat -> Round, n: nat)
    ensures RoundsCounted(rounds, n) + RoundsFailed(rounds, n) + RoundsSkipped(rounds, n)
            == n + RoundsFailingAtCommit(rounds, n)
    ensures RoundsCounted(rounds, n) + RoundsFailed(rounds, n) <= n
            <==> RoundsFailingAtCommit(rounds, n) <= RoundsSkipped(rounds, n)
  {
    if n > 0 {
      CountersAddUp(rounds, n - 1);
    }
  }

  /** One pending row whose marking transaction fails to commit, in a pass of its own: it is reported published and
    failed, and is still pending. */
  lemma FailedCommitIsCountedTwice(row: Row)
    requires !row.published
    ensures var rows, rounds := [row], (_: nat) => Round(CommitFails, false);
            && Take(Pending(rows), 100) == [0]
            && RoundsCounted(rounds, 1) == 1 && RoundsFailed(rounds, 1) == 1
            && Marked(rows, [0], rounds, 1) == rows
  {
    assert [row][..0] == [] && Pending([]) == [];
    assert Pending([row]) == [0];
    var rounds := (_: nat) => Round(CommitFails, false);
    assert RoundsCounted(rounds, 0) == 0 && RoundsFailed(rounds, 0) == 0;
    assert Marked([row], [0], rounds, 0) == [row];
  }

  lemma SendKeeps(rows: seq<Row>, work: seq<Work>, events: seq<nat>, id: nat)
    requires Conserved(rows, work, events) && id < |rows| && WorkOf(rows[id]).Some?
    ensures Conserved(rows, work + [WorkOf(rows[id]).value], events)
    ensures HasWork(rows[id], work + [WorkOf(rows[id]).value])
  {
    var message := WorkOf(rows[id]).value;
    forall m ensures AsksFor(rows[id], m) <==> m == message {
      WorkIsAskedFor(rows[id], m);
    }
    forall law ensures Obeys(law, rows, work + [message], events) {
      assert Obeys(law, rows, work, events);
    }
  }

  lemma NoWorkIsDone(row: Row, work: seq<Work>)
    requires WorkOf(row).None?
    ensures HasWork(row, work)
  {
    forall m ensures !AsksFor(row, m) {
      WorkIsAskedFor(row, m);
    }
  }

  lemma AnnounceKeeps(rows: seq<Row>, work: seq<Work>, events: seq<nat>, id: nat)
    requires Conserved(rows, work, events) && id < |rows| && HasWork(rows[id], work)
    ensures Conserved(rows, work, events + [id])
  {
    forall law ensures Obeys(law, rows, work, events + [id]) {
      assert Obeys(law, rows, work, events);
    }
  }

  lemma MarkKeeps(rows: seq<Row>, work: seq<Work>, events: seq<nat>, id: nat)
    requires Conserved(rows, work, events) && id < |rows| && Delivered(rows[id], id, work, events)
    ensures Conserved(Mark(rows, id), work, events)
  {
    forall m | m in work ensures IsCalledFor(Mark(rows, id), m) {
      assert Obeys(NothingInvented, rows, work, events);
      var i :| 0 <= i < |rows| && AsksFor(rows[i], m);
      assert AsksFor(Mark(rows, id)[i], m);
    }
    forall law ensures Obeys(law, Mark(rows, id), work, events) {
      assert Obeys(law, rows, work, events);
      if law == WorkFirst {
        MarkLeavesWork(rows, work, id);
      }
    }
  }

  /** Publishing changes nothing about what a row calls for, and streams only grow. */
  lemma WorkStays(row: Row, row': Row, work: seq<Work>, work': seq<Work>)
    requires HasWork(row, work) && row'.session == row.session && row'.body == row.body && work <= work'
    ensures HasWork(row', work')
  {
    forall m | AsksFor(row', m) ensures m in work' {
      assert AsksFor(row, m);
    }
  }

  lemma MarkLeavesWork(rows: seq<Row>, work: seq<Work>, id: nat)
    requires id < |rows|
    ensures forall i :: 0 <= i < |rows| && HasWork(rows[i], work) ==> HasWork(Mark(rows, id)[i], work)
  {
    forall i | 0 <= i < |rows| && HasWork(rows[i], work) ensures HasWork(Mark(rows, id)[i], work) {
      WorkStays(rows[i], Mark(rows, id)[i], work, work);
    }
  }

  // ---------- Draining ----------

  /** How many rows n passes can publish. */
  function Capacity(limit: nat, n: nat): nat {
    if n == 0 then 0 else Capacity(limit, n - 1) + limit
  }

  lemma {:induction false} CapacityIsProduct(limit: nat, n: nat)
    ensures Capacity(limit, n) == n * limit
  {
    if n > 0 {
      CapacityIsProduct(limit, n - 1);
    }
  }

  /** The rows after n undisturbed passes. */
  function Passes(rows: seq<Row>, limit: int, n: nat): seq<Row> {
    if n == 0 then rows
    else
      var before := Passes(rows, limit, n - 1);
      var batch := Take(Pending(before), limit);
      Marked(before, batch, UNDISTURBED, |batch|)
  }

  /** An ordered complete list of pending rows ends with the last row exactly when that is pending. */
  lemma LastOfBatch(rows: seq<Row>, ids: seq<nat>)
    requires rows != [] && IsBatch(rows, ids)
    requires forall i :: 0 <= i < |rows| && !rows[i].published ==> i in ids
    ensures rows[|rows| - 1].published ==> IsBatch(rows[..|rows| - 1], ids)
    ensures !rows[|rows| - 1].published ==>
              ids != [] && ids[|ids| - 1] == |rows| - 1 && IsBatch(rows[..|rows| - 1], ids[..|ids| - 1])
  {
    var n := |rows| - 1;
    if !rows[n].published {
      var k :| 0 <= k < |ids| && ids[k] == n;
      assert k < |ids| - 1 ==> ids[k] < ids[|ids| - 1] < |rows|;
    }
  }

  /** The pending rows are the only list that is ordered and complete. */
  lemma {:induction false} PendingIsUnique(rows: seq<Row>, ids: seq<nat>)
    requires IsBatch(rows, ids)
    requires forall i :: 0 <= i < |rows| && !rows[i].published ==> i in ids
    ensures ids == Pending(rows)
    decreases |rows|
  {
    if rows != [] {
      var n := |rows| - 1;
      LastOfBatch(rows, ids);
      if rows[n].published {
        PendingIsUnique(rows[..n], ids);
      } else {
        assert ids == ids[..|ids| - 1] + [n];
        PendingIsUnique(rows[..n], ids[..|ids| - 1]);
      }
    }
  }

  /** After an undisturbed pass exactly the rest of the pending rows is pending. */
  lemma RestIsPending(rows: seq<Row>, ids: seq<nat>, n: nat)
    requires n <= |ids| && IsBatch(rows, ids)
    ensures |Marked(rows, ids[..n], UNDISTURBED, n)| == |rows|
    ensures forall k :: n <= k < |ids| ==> !Marked(rows, ids[..n], UNDISTURBED, n)[ids[k]].published
    ensures forall k :: 0 <= k < n ==> Marked(rows, ids[..n], UNDISTURBED, n)[ids[k]].published
    ensures forall i :: 0 <= i < |rows| && rows[i].published ==> Marked(rows, ids[..n], UNDISTURBED, n)[i].published
  {
    MarkedRows(rows, ids[..n], UNDISTURBED, n);
  }

  lemma RestIsComplete(rows: seq<Row>, after: seq<Row>, ids: seq<nat>, n: nat)
    requires n <= |ids| && IsBatch(rows, ids) && |after| == |rows|
    requires forall i :: 0 <= i < |rows| && !rows[i].published ==> i in ids
    requires forall k :: n <= k < |ids| ==> !after[ids[k]].published
    requires forall k :: 0 <= k < n ==> after[ids[k]].published
    requires forall i :: 0 <= i < |rows| && rows[i].published ==> after[i].published
    ensures IsBatch(after, ids[n..])
    ensures forall i :: 0 <= i < |after| && !after[i].published ==> i in ids[n..]
  {
    forall i | 0 <= i < |after| && !after[i].published ensures i in ids[n..] {
      assert i in ids;
      var k :| 0 <= k < |ids| && ids[k] == i;
      assert ids[n..][k - n] == i;
    }
  }

  /** An undisturbed pass takes its batch off the front of the pending rows. */
  lemma PassTakesFront(rows: seq<Row>, limit: int)
    ensures var batch := Take(Pending(rows), limit);
            Pending(Marked(rows, batch, UNDISTURBED, |batch|)) == Pending(rows)[|batch|..]
  {
    var ids := Pending(rows);
    var n := |Take(ids, limit)|;
    PendingRows(rows);
    assert Take(ids, limit) == ids[..n];
    RestIsPending(rows, ids, n);
    RestIsComplete(rows, Marked(rows, ids[..n], UNDISTURBED, n), ids, n);
    PendingIsUnique(Marked(rows, ids[..n], UNDISTURBED, n), ids[n..]);
  }

  lemma {:induction false} PassesLeave(rows: seq<Row>, limit: nat, n: nat)
    requires limit >= 1
    ensures |Pending(Passes(rows, limit, n))|
            == if |Pending(rows)| <= Capacity(limit, n) then 0 else |Pending(rows)| - Capacity(limit, n)
  {
    if n > 0 {
      PassesLeave(rows, limit, n - 1);
      PassTakesFront(Passes(rows, limit, n - 1), limit);
    }
  }

  /** k pending rows are drained by exactly ceil(k / limit) undisturbed passes, and by no fewer. */
  lemma DrainsInCeilPasses(rows: seq<Row>, limit: nat, n: nat)
    requires limit >= 1
    ensures Pending(Passes(rows, limit, n)) == [] <==> n >= (|Pending(rows)| + limit - 1) / limit
  {
    PassesLeave(rows, limit, n);
    CapacityIsProduct(limit, n);
    CeilDivides(|Pending(rows)|, limit, n);
  }

  lemma CeilDivides(k: nat, limit: nat, n: nat)
    requires limit >= 1
    ensures k <= n * limit <==> n >= (k + limit - 1) / limit
  {
    var q := (k + limit - 1) / limit;
    assert q * limit <= k + limit - 1 < q * limit + limit;
    if n >= q {
      assert n * limit >= q * limit;
    } else {
      assert (n + 1) * limit <= q * limit;
    }
  }
}
