/** The cancel marks of backend/app/cancellation.py: writes and reads may fail, and a failed read sees no mark.

  A mark expires after five minutes or is lost with Redis, which is the step LoseCancelKey of a run.
 */
module Cancellation {
  import opened Rows
  import opened History
  import opened Refinement
  import opened Runs
  import opened RunInvariant
  import opened RunSafety
  import opened LogTheorems
  import opened Theorems

  /** The ids whose write succeeds. */
  function Written(ids: seq<TaskId>, fails: nat -> bool): set<TaskId> {
    set i | 0 <= i < |ids| && !fails(i) :: ids[i]
  }

  predicate Reports(marks: set<TaskId>, id: TaskId, fails: bool) {
    id in marks && !fails
  }

  class CancelMarks {
    var marks: set<TaskId>

    constructor ()
      ensures marks == {}
    {
      marks := {};
    }

    /** `write_task_cancel_keys`: a write that fails does not keep the following ones from being tried. */
    method WriteTaskCancelKeys(ids: seq<TaskId>, fails: nat -> bool)
      modifies this
      ensures marks == old(marks) + Written(ids, fails)
    {
      for i := 0 to |ids|
        invariant marks == old(marks) + Written(ids[..i], fails)
      {
        WrittenOneMore(ids[..i + 1], fails);
        assert ids[..i + 1][..i] == ids[..i];
        if !fails(i) {
          marks := marks + {ids[i]};
        }
      }
      assert ids[..|ids|] == ids;
    }

    /** `has_task_cancel_key`: it may miss a mark, but it never sees one that is not there. */
    method HasTaskCancelKey(id: TaskId, fails: bool) returns (seen: bool)
      ensures seen <==> Reports(marks, id, fails)
    {
      if fails {
        return false;
      }
      return id in marks;
    }
  }

  lemma WrittenOneMore(ids: seq<TaskId>, fails: nat -> bool)
    requires ids != []
    ensures var n := |ids| - 1; Written(ids, fails) == Written(ids[..n], fails) + if fails(n) then {} else {ids[n]}
  {
    var n := |ids| - 1;
    forall t | t in Written(ids, fails) ensures t in Written(ids[..n], fails) || (t == ids[n] && !fails(n)) {
      var i :| 0 <= i < |ids| && !fails(i) && ids[i] == t;
      assert i < n ==> ids[..n][i] == t;
    }
    forall t | t in Written(ids[..n], fails) ensures t in Written(ids, fails) {
      var i :| 0 <= i < n && !fails(i) && ids[..n][i] == t;
      assert ids[i] == t;
    }
  }

  // ---------- The marks within a run ----------

  /** The row is an accepted interrupt that cancelled the task. */
  predicate Cancels(e: EventBody, id: TaskId) {
    e.InterruptAccepted? && id in e.cancelled
  }

  /** One step for each write that succeeds. */
  function WriteSteps(index: nat, ids: seq<TaskId>, fails: nat -> bool): seq<Step> {
    if ids == [] then []
    else
      var n := |ids| - 1;
      WriteSteps(index, ids[..n], fails) + if fails(n) then [] else [WriteCancelKey(index, ids[n])]
  }

  lemma WriteIsStep(w: World, index: nat, id: TaskId)
    requires index < |w.db.outbox| && Cancels(w.db.outbox[index].body, id)
    ensures Do(w, WriteCancelKey(index, id)) == w.(cancelKeys := w.cancelKeys + {id})
  {}

  lemma LastStep(w: World, steps: seq<Step>, s: Step)
    ensures After(w, steps + [s]) == Do(After(w, steps), s)
  {
    assert (steps + [s])[..|steps|] == steps;
  }

  /** Writing the marks of an accepted interrupt is a run of steps that changes nothing but the marks. */
  lemma {:induction false} WritesAreSteps(w: World, index: nat, ids: seq<TaskId>, fails: nat -> bool)
    requires index < |w.db.outbox| && forall t :: t in ids ==> Cancels(w.db.outbox[index].body, t)
    ensures After(w, WriteSteps(index, ids, fails)) == w.(cancelKeys := w.cancelKeys + Written(ids, fails))
  {
    if ids != [] {
      var n := |ids| - 1;
      WritesAreSteps(w, index, ids[..n], fails);
      WrittenOneMore(ids, fails);
      assert ids[n] in ids;
      WriteIsStep(w.(cancelKeys := w.cancelKeys + Written(ids[..n], fails)), index, ids[n]);
      LastStep(w, WriteSteps(index, ids[..n], fails), WriteCancelKey(index, ids[n]));
      assert WriteSteps(index, ids[..n], fails) + [] == WriteSteps(index, ids[..n], fails);
    } else {
      assert Written(ids, fails) == {};
    }
  }

  /** A runner that asks for its mark can be told exactly what some read of the marks returns. */
  lemma ReadsAreSteps(w: World, run: RunId, seen: bool)
    requires run in w.runners && w.runners[run].pc in {CheckKey, RecheckKey}
    ensures Do(w, ReadKey(run, seen)) != w <==> exists fails :: seen == Reports(w.cancelKeys, w.runners[run].task, fails)
  {
    assert Reports(w.cancelKeys, w.runners[run].task, true) == false;
    assert Reports(w.cancelKeys, w.runners[run].task, false) == (w.runners[run].task in w.cancelKeys);
    assert Do(w, ReadKey(run, seen)) != w ==> Do(w, ReadKey(run, seen)).runners[run].pc != w.runners[run].pc;
  }

  // ---------- What a mark means ----------

  ghost predicate Listed(outbox: seq<EventRow>, id: TaskId) {
    exists i :: 0 <= i < |outbox| && Cancels(outbox[i].body, id)
  }

  lemma StaysListed(outbox: seq<EventRow>, outbox': seq<EventRow>, id: TaskId)
    requires outbox <= outbox' && Listed(outbox, id)
    ensures Listed(outbox', id)
  {
    var i :| 0 <= i < |outbox| && Cancels(outbox[i].body, id);
    assert outbox'[i] == outbox[i];
  }

  lemma NewMarkIsListed(w: World, s: Step, id: TaskId)
    ensures id in Do(w, s).cancelKeys ==> id in w.cancelKeys || Listed(w.db.outbox, id)
  {}

  lemma {:induction false} MarksAreListed(w: World, steps: seq<Step>, id: TaskId)
    requires WorldInv(w) && (id in w.cancelKeys ==> Listed(w.db.outbox, id))
    ensures id in After(w, steps).cancelKeys ==> Listed(After(w, steps).db.outbox, id)
  {
    if steps != [] && id in After(w, steps).cancelKeys {
      var before, s := After(w, steps[..|steps| - 1]), steps[|steps| - 1];
      MarksAreListed(w, steps[..|steps| - 1], id);
      AfterKeeps(w, steps[..|steps| - 1]);
      NewMarkIsListed(before, s, id);
      LogGrows(before, [s]);
      assert [s][..0] == [] && After(before, [s]) == Do(before, s);
      StaysListed(before.db.outbox, After(w, steps).db.outbox, id);
    }
  }

  /** A cancelled task that has not been discarded yet, or has. */
  predicate IsCancelled(status: TaskStatus) {
    status.CancelRequested? || status.Cancelled? || status.Discarded?
  }

  /** From the interrupt that lists a task on, the task never gets past its cancellation. */
  lemma {:induction false} ListedIsCancelled(log: seq<EventBody>, i: nat, id: TaskId)
    requires Legal(log) && i < |log| && Cancels(log[i], id)
    ensures id in Fold(log).tasks && IsCancelled(Fold(log).tasks[id].status)
  {
    var n := |log| - 1;
    Started(log[..n]);
    if i < n {
      ListedIsCancelled(log[..n], i, id);
    }
    TaskStep(Fold(log[..n]), log[n], id);
  }

  /** A mark in Redis is honest: the task that carries it was cancelled by an accepted interrupt, and it never succeeds,
    fails or runs again, whatever happens later and whatever becomes of the mark. */
  lemma MarksAreHonest(w: World, steps: seq<Step>, id: TaskId)
    requires Reachable(w) && id in w.cancelKeys
    ensures Listed(w.db.outbox, id)
    ensures id in After(w, steps).db.tasks && IsCancelled(After(w, steps).db.tasks[id].status)
  {
    ReachableInv(w);
    var r :| EndsIn(r, w);
    assert LeadsTo(r, |r.steps|, w);
    RunsAreSafe(r.limits, r.preference, []);
    MarksAreListed(Init(r.limits, r.preference), r.steps[..|r.steps|], id);
    AfterKeeps(w, steps);
    LogGrows(w, steps);
    StaysListed(w.db.outbox, After(w, steps).db.outbox, id);
    Open(After(w, steps));
    RowListsCancelled(After(w, steps).db, id);
  }

  lemma RowListsCancelled(db: SessionDb, id: TaskId)
    requires Inv(db) && Listed(db.outbox, id)
    ensures id in db.tasks && IsCancelled(db.tasks[id].status)
  {
    LogAspects(db);
    var i :| 0 <= i < |db.outbox| && Cancels(db.outbox[i].body, id);
    ListedIsCancelled(Bodies(db.outbox), i, id);
    assert Holds(Tasks, db);
  }
}
