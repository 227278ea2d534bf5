/** The event websocket of backend/app/main.py: what a client has been sent when its snapshot is torn.

  The session row and the events are read at different instants, and rows are committed in between.  The log is what
  Theorems.FeedsTheLog says it is: row k has sequence number k + 1, the session row's last_event_seq is its length, and
  every later read sees an extension of it.
 */
module EventFeed {
  import opened Rows

  /** Rows with a larger sequence number than `after`, in order. */
  function Missed(log: seq<EventRow>, after: nat): seq<EventRow> {
    if log == [] then []
    else
      var n := |log| - 1;
      Missed(log[..n], after) + if log[n].seqNo > after then [log[n]] else []
  }

  predicate Numbered(log: seq<EventRow>) {
    forall k :: 0 <= k < |log| ==> log[k].seqNo == k + 1
  }

  function Slice(log: seq<EventRow>, from: nat, to: nat): seq<EventRow> {
    if from <= to <= |log| then log[from..to] else []
  }

  lemma {:induction false} MissedIsSlice(log: seq<EventRow>, after: nat)
    requires Numbered(log)
    ensures Missed(log, after) == Slice(log, after, |log|)
  {
    if log != [] {
      var n := |log| - 1;
      MissedIsSlice(log[..n], after);
      if after < n {
        assert log[after..] == log[..n][after..] + [log[n]];
      } else if after == n {
        assert log[..n][after..] == [] && log[after..] == [log[n]];
      }
    }
  }

  // ---------- The socket ----------

  /** A connection since its last snapshot, which asked for what comes after `claim`.  `seen` and `loaded` are what
    the two reads of that snapshot found: last_event_seq, and the length of the log. */
  datatype Feed = Feed(claim: nat, seen: nat, loaded: nat, cursor: nat, sent: seq<EventRow>)

  datatype Socket = Closed | Requested(claim: nat) | HalfRead(claim: nat, seen: nat) | Streaming(feed: Feed)

  datatype Server = Server(
    log: seq<EventRow>,
    socket: Socket,
    named: nat,                // history: the cursor the client named last, when connecting or resuming
    received: seq<EventRow>)   // history: every event sent to it since

  datatype Step =
    | Commit(body: EventBody, key: DedupeKey)
    | Connect(afterSeq: int)
    | Resume(requested: Option<int>)
    | ReadSession
    | ReadEvents
    | Poll(cut: Option<nat>)    // after how many events the client is gone
    | Disconnect

  /** The cursor after the events of a poll: that of the last one sent. */
  function Advance(cursor: nat, events: seq<EventRow>): nat {
    if events == [] then cursor else events[|events| - 1].seqNo
  }

  function Open(log: seq<EventRow>, claim: nat, seen: nat): Feed {
    Feed(claim, seen, |log|, seen, Missed(log, claim))
  }

  function Polled(f: Feed, log: seq<EventRow>): Feed {
    f.(cursor := Advance(f.cursor, Missed(log, f.cursor)), sent := f.sent + Missed(log, f.cursor))
  }

  /** The client names a cursor of its own. */
  function Name(s: Server, cursor: nat): Server {
    s.(socket := Requested(cursor), named := cursor, received := [])
  }

  function Do(s: Server, step: Step): Server {
    match step
    case Commit(body, key) => s.(log := s.log + [EventRow(|s.log| + 1, body, key)])
    case Connect(afterSeq) =>
      // a negative cursor closes the connection
      if s.socket != Closed || afterSeq < 0 then s else Name(s, afterSeq)
    case Resume(requested) =>
      if !s.socket.Streaming? then s
      else if requested.None? then s.(socket := Requested(s.socket.feed.cursor))
      else Name(s, if requested.value < 0 then 0 else requested.value)
    case ReadSession => if s.socket.Requested? then s.(socket := HalfRead(s.socket.claim, |s.log|)) else s
    case ReadEvents =>
      if !s.socket.HalfRead? then s
      else
        var feed := Open(s.log, s.socket.claim, s.socket.seen);
        s.(socket := Streaming(feed), received := s.received + feed.sent)
    case Poll(cut) =>
      if !s.socket.Streaming? then s
      else
        var events := Missed(s.log, s.socket.feed.cursor);
        if cut.Some? && cut.value < |events| then s.(socket := Closed, received := s.received + events[..cut.value])
        else s.(socket := Streaming(Polled(s.socket.feed, s.log)), received := s.received + events)
    case Disconnect => s.(socket := Closed)
  }

  function After(steps: seq<Step>): Server {
    if steps == [] then Server([], Closed, 0, []) else Do(After(steps[..|steps| - 1]), steps[|steps| - 1])
  }

  // ---------- Exactly what was sent ----------

  /** Everything after the claim that the snapshot found, and then everything after `seen` up to the cursor. */
  ghost predicate FeedOk(f: Feed, log: seq<EventRow>) {
    && f.seen <= f.loaded <= |log| && f.seen <= f.cursor <= |log|
    && f.sent == Slice(log, f.claim, f.loaded) + Slice(log, f.seen, f.cursor)
  }

  ghost predicate ServerOk(s: Server) {
    && Numbered(s.log)
    && match s.socket
       case HalfRead(_, seen) => seen <= |s.log|
       case Streaming(f) => FeedOk(f, s.log)
       case _ => true
  }

  lemma SliceKept(log: seq<EventRow>, log': seq<EventRow>, from: nat, to: nat)
    requires log <= log' && to <= |log|
    ensures Slice(log', from, to) == Slice(log, from, to)
  {}

  lemma SliceSplits(log: seq<EventRow>, from: nat, mid: nat, to: nat)
    requires from <= mid <= to <= |log|
    ensures Slice(log, from, mid) + Slice(log, mid, to) == Slice(log, from, to)
  {}

  lemma PolledOk(f: Feed, log: seq<EventRow>)
    requires Numbered(log) && FeedOk(f, log)
    ensures FeedOk(Polled(f, log), log) && Polled(f, log).cursor == |log|
  {
    MissedIsSlice(log, f.cursor);
    SliceSplits(log, f.seen, f.cursor, |log|);
    var first, second, third := Slice(log, f.claim, f.loaded), Slice(log, f.seen, f.cursor), Slice(log, f.cursor, |log|);
    assert (first + second) + third == first + (second + third);
  }

  lemma StepKeeps(s: Server, step: Step)
    requires ServerOk(s)
    ensures ServerOk(Do(s, step))
  {
    match step
    case Commit(_, _) =>
      if s.socket.Streaming? {
        var f, log' := s.socket.feed, Do(s, step).log;
        SliceKept(s.log, log', f.claim, f.loaded);
        SliceKept(s.log, log', f.seen, f.cursor);
      }
    case ReadEvents =>
      if s.socket.HalfRead? {
        MissedIsSlice(s.log, s.socket.claim);
        assert Slice(s.log, s.socket.seen, s.socket.seen) == [];
      }
    case Poll(_) =>
      if s.socket.Streaming? { PolledOk(s.socket.feed, s.log); }
    case _ =>
  }

  lemma {:induction false} RunsKeep(steps: seq<Step>)
    ensures ServerOk(After(steps))
  {
    if steps != [] {
      RunsKeep(steps[..|steps| - 1]);
      StepKeeps(After(steps[..|steps| - 1]), steps[|steps| - 1]);
    }
  }

  /** How many rows the snapshot of the claim contained. */
  function FirstCount(f: Feed): nat {
    if f.claim <= f.loaded then f.loaded - f.claim else 0
  }

  /** The i-th row sent, by its sequence number. */
  lemma SentAt(f: Feed, log: seq<EventRow>, i: nat)
    requires Numbered(log) && FeedOk(f, log) && i < |f.sent|
    ensures i < FirstCount(f) ==> f.claim + i < |log| && f.sent[i] == log[f.claim + i]
    ensures i >= FirstCount(f) ==> f.seen + (i - FirstCount(f)) < f.cursor && f.sent[i] == log[f.seen + (i - FirstCount(f))]
  {
    var first, second := Slice(log, f.claim, f.loaded), Slice(log, f.seen, f.cursor);
    assert |first| == FirstCount(f);
    if i < |first| {
      assert f.sent[i] == first[i];
    } else {
      assert f.sent[i] == second[i - |first|];
    }
  }

  // ---------- Nothing is left out ----------

  /** Every row from the named cursor up to `to` has been received. */
  ghost predicate Complete(s: Server, to: nat) {
    forall k :: s.named <= k < to && k < |s.log| ==> s.log[k] in s.received
  }

  /** Where the socket stands: all that lies below has been received.  Only the client itself can name a cursor that
    lies ahead of the log. */
  ghost predicate Tracked(s: Server) {
    match s.socket
    case Closed => true
    case Requested(claim) => Complete(s, claim) && (claim <= |s.log| || claim == s.named)
    case HalfRead(claim, _) => Complete(s, claim) && (claim <= |s.log| || claim == s.named)
    case Streaming(f) => Complete(s, f.cursor)
  }

  lemma MissedCompletes(s: Server, s': Server, from: nat, to: nat)
    requires Numbered(s.log) && Complete(s, from)
    requires s'.log == s.log && s'.named == s.named && s'.received == s.received + Missed(s.log, from)
    ensures Complete(s', to)
  {
    MissedIsSlice(s.log, from);
    forall k | s.named <= k < to && k < |s.log| ensures s.log[k] in s'.received {
      if k >= from {
        assert Slice(s.log, from, |s.log|)[k - from] == s.log[k];
      }
    }
  }

  lemma StepTracks(s: Server, step: Step)
    requires ServerOk(s) && Tracked(s)
    ensures Tracked(Do(s, step))
  {
    match step
    case ReadEvents =>
      if s.socket.HalfRead? { MissedCompletes(s, Do(s, step), s.socket.claim, s.socket.seen); }
    case Poll(cut) =>
      if s.socket.Streaming? && Do(s, step).socket.Streaming? {
        MissedCompletes(s, Do(s, step), s.socket.feed.cursor, Do(s, step).socket.feed.cursor);
      }
    case _ =>
  }

  lemma {:induction false} RunsTrack(steps: seq<Step>)
    ensures Tracked(After(steps))
  {
    if steps != [] {
      RunsTrack(steps[..|steps| - 1]);
      RunsKeep(steps[..|steps| - 1]);
      StepTracks(After(steps[..|steps| - 1]), steps[|steps| - 1]);
    }
  }

  /** The step names a cursor of the client, and the server takes it. */
  predicate Names(s: Server, step: Step) {
    match step
    case Connect(afterSeq) => s.socket == Closed && afterSeq >= 0
    case Resume(requested) => s.socket.Streaming? && requested.Some?
    case _ => false
  }

  /** The cursor in the client's message; a resume may name a negative one, which counts as 0. */
  predicate IsCursorOf(step: Step, cursor: nat) {
    match step
    case Connect(afterSeq) => cursor == afterSeq
    case Resume(Some(requested)) => cursor == if requested < 0 then 0 else requested
    case _ => false
  }

  /** Step i is the last in which the client named a cursor, and this is the cursor. */
  predicate LastNamed(steps: seq<Step>, i: nat, cursor: nat) {
    && i < |steps| && Names(After(steps[..i]), steps[i]) && IsCursorOf(steps[i], cursor)
    && forall j :: i < j < |steps| ==> !Names(After(steps[..j]), steps[j])
  }

  lemma {:induction false} NamedIsLastNamed(steps: seq<Step>, i: nat, cursor: nat)
    requires LastNamed(steps, i, cursor)
    ensures After(steps).named == cursor
  {
    var n := |steps| - 1;
    if i < n {
      assert steps[..n][..i] == steps[..i];
      assert forall j :: i < j < n ==> steps[..n][..j] == steps[..j];
      NamedIsLastNamed(steps[..n], i, cursor);
      assert !Names(After(steps[..n]), steps[n]);
    }
  }

  /** A socket that is open was opened with a cursor. */
  lemma {:induction false} OpenHasNamed(steps: seq<Step>) returns (i: nat, cursor: nat)
    requires After(steps).socket != Closed
    ensures LastNamed(steps, i, cursor)
  {
    var n := |steps| - 1;
    if Names(After(steps[..n]), steps[n]) {
      i := n;
      cursor := match steps[n]
        case Connect(afterSeq) => afterSeq
        case Resume(Some(requested)) => if requested < 0 then 0 else requested;
    } else {
      i, cursor := OpenHasNamed(steps[..n]);
      assert steps[..n][..i] == steps[..i];
      assert forall j :: i < j < n ==> steps[..n][..j] == steps[..j];
    }
  }

  /** No gaps: from the message in which the client last named a cursor, across resumes with none, across polls, and
    however many rows are committed between the two reads of a snapshot, every event after that cursor and up to the
    server's was sent. */
  lemma FeedHasNoGaps(steps: seq<Step>, i: nat, cursor: nat, k: nat)
    requires After(steps).socket.Streaming? && LastNamed(steps, i, cursor)
    requires cursor <= k < After(steps).socket.feed.cursor
    ensures k < |After(steps).log| && After(steps).log[k].seqNo == k + 1
    ensures After(steps).log[k] in After(steps).received
  {
    RunsKeep(steps);
    RunsTrack(steps);
    NamedIsLastNamed(steps, i, cursor);
  }

  lemma LastStep(steps: seq<Step>, s: Step)
    ensures After(steps + [s]) == Do(After(steps), s)
  {
    assert (steps + [s])[..|steps|] == steps;
  }

  /** A request that two reads follow. */
  lemma RequestIsRead(s: Server, ask: Step, cursor: nat)
    requires Numbered(s.log) && Names(s, ask) && IsCursorOf(ask, cursor)
    ensures var s' := Do(Do(Do(s, ask), ReadSession), ReadEvents);
            && s'.log == s.log && s'.socket == Streaming(Open(s.log, cursor, |s.log|))
            && s'.received == if cursor <= |s.log| then s.log[cursor..] else []
  {
    MissedIsSlice(s.log, cursor);
  }

  /** A client that names a cursor is answered with every event after it, then and there. */
  lemma SnapshotAnswers(steps: seq<Step>, ask: Step, cursor: nat)
    requires Names(After(steps), ask) && IsCursorOf(ask, cursor)
    ensures var before, s := After(steps), After(steps + [ask, ReadSession, ReadEvents]);
            && s.log == before.log && s.socket.Streaming? && s.socket.feed.cursor == |s.log|
            && s.received == if cursor <= |s.log| then s.log[cursor..] else []
  {
    RunsKeep(steps);
    RequestIsRead(After(steps), ask, cursor);
    LastStep(steps, ask);
    LastStep(steps + [ask], ReadSession);
    LastStep(steps + [ask] + [ReadSession], ReadEvents);
    assert steps + [ask, ReadSession, ReadEvents] == steps + [ask] + [ReadSession] + [ReadEvents];
  }

  /** A client that resumes without a cursor is answered with every event after the last one the server counts as sent. */
  lemma ResumeAnswers(steps: seq<Step>)
    requires After(steps).socket.Streaming?
    ensures var before, s := After(steps), After(steps + [Resume(None), ReadSession, ReadEvents]);
            && s.log == before.log && s.socket.Streaming? && s.socket.feed.cursor == |s.log|
            && before.socket.feed.cursor <= |s.log|
            && s.received == before.received + s.log[before.socket.feed.cursor..]
  {
    RunsKeep(steps);
    MissedIsSlice(After(steps).log, After(steps).socket.feed.cursor);
    LastStep(steps, Resume(None));
    LastStep(steps + [Resume(None)], ReadSession);
    LastStep(steps + [Resume(None)] + [ReadSession], ReadEvents);
    assert steps + [Resume(None), ReadSession, ReadEvents] == steps + [Resume(None)] + [ReadSession] + [ReadEvents];
  }

  /** Only rows of the log are sent, and only those committed between the two reads of the snapshot are sent twice. */
  lemma OnlyTornRowsRepeat(steps: seq<Step>, i: nat, j: nat)
    requires After(steps).socket.Streaming?
    requires i < j < |After(steps).socket.feed.sent|
    ensures After(steps).socket.feed.sent[i] in After(steps).log
    ensures var f := After(steps).socket.feed;
            f.sent[i] == f.sent[j] ==> f.seen < f.sent[i].seqNo <= f.loaded
  {
    RunsKeep(steps);
    SentAt(After(steps).socket.feed, After(steps).log, i);
    SentAt(After(steps).socket.feed, After(steps).log, j);
  }

  /** A poll that is not cut short catches up with the log. */
  lemma PollCatchesUp(steps: seq<Step>, i: nat, cursor: nat)
    requires After(steps).socket.Streaming? && LastNamed(steps, i, cursor)
    ensures var s := After(steps + [Poll(None)]);
            && s.log == After(steps).log && s.socket.Streaming? && s.socket.feed.cursor == |s.log|
            && forall k :: cursor <= k < |s.log| ==> s.log[k] in s.received
  {
    LastStep(steps, Poll(None));
    RunsKeep(steps);
    PolledOk(After(steps).socket.feed, After(steps).log);
    NamedIsLastNamed(steps, i, cursor);
    RunsTrack(steps + [Poll(None)]);
  }

  /** A client that is gone has received what was sent until then, and must connect again. */
  lemma GoneClientKeepsEvents(s: Server, cut: nat)
    requires s.socket.Streaming? && cut < |Missed(s.log, s.socket.feed.cursor)|
    ensures Do(s, Disconnect).socket == Closed && Do(s, Disconnect).received == s.received
    ensures var s' := Do(s, Poll(Some(cut)));
            s'.socket == Closed && s'.received == s.received + Missed(s.log, s.socket.feed.cursor)[..cut]
  {}

  // ---------- The loops that send ----------

  class Connection {
    var cursor: nat
    var sent: seq<EventRow>

    constructor ()
      ensures cursor == 0 && sent == []
    {
      cursor, sent := 0, [];
    }

    /** `_send_snapshot_and_missed_events`: the cursor is the one of the session row, not of the last event. */
    method SendSnapshotAndMissedEvents(log: seq<EventRow>, claim: nat, seen: nat)
      modifies this
      ensures cursor == Open(log, claim, seen).cursor
      ensures sent == old(sent) + Open(log, claim, seen).sent
    {
      var events := Missed(log, claim);
      for i := 0 to |events|
        invariant sent == old(sent) + events[..i]
      {
        assert events[..i + 1] == events[..i] + [events[i]];
        sent := sent + [events[i]];
      }
      assert events[..|events|] == events;
      cursor := seen;
    }

    /** The idle branch of the receive loop: every event moves the cursor, so a cut-off poll can be taken up again. */
    method PollOnce(log: seq<EventRow>, cut: Option<nat>) returns (alive: bool)
      modifies this
      ensures alive <==> cut.None? || cut.value >= |Missed(log, old(cursor))|
      ensures alive ==> cursor == Advance(old(cursor), Missed(log, old(cursor))) && sent == old(sent) + Missed(log, old(cursor))
      ensures !alive ==>
                && sent == old(sent) + Missed(log, old(cursor))[..cut.value]
                && cursor == Advance(old(cursor), Missed(log, old(cursor))[..cut.value])
    {
      var events := Missed(log, cursor);
      for i := 0 to |events|
        invariant cut.Some? ==> i <= cut.value
        invariant sent == old(sent) + events[..i] && cursor == Advance(old(cursor), events[..i])
      {
        if cut.Some? && cut.value == i {
          return false;
        }
        assert events[..i + 1] == events[..i] + [events[i]];
        sent := sent + [events[i]];
        cursor := events[i].seqNo;
      }
      assert events[..|events|] == events;
      return true;
    }
  }
}
