/** The invariant every task row keeps in every run, and the ways a row can change. */
module Rows {
  import opened Domain
  import opened TaskRow
  import opened System
  import opened Shapes

  predicate RowInv(w: World, t: TaskId)
    requires t in w.db.tasks
  {
    var row := w.db.tasks[t];
    && t in w.past.homes && w.past.homes[t] == row.recording
    && row.recording in w.db.recordings
    && RowOk(w.cfg, row, Latest(w, row.recording))
    && (row.token.Some? ==> row.token.value in w.past.tokens)
  }

  predicate RowsInv(w: World) {
    && ValidConfig(w.cfg)
    && (forall t :: t in w.db.tasks ==> RowInv(w, t))
    && (forall r :: r in w.past.latest ==> w.past.latest[r] <= w.now)
    && (forall r :: r in w.db.recordings ==> r in w.past.latest && r in w.past.usedRecordings)
    && (forall t :: t in w.past.homes ==> t in w.past.usedTasks && w.past.homes[t] in w.past.usedRecordings)
  }

  predicate Later(w: World, w': World) {
    && w'.cfg == w.cfg && w.now <= w'.now
    && w.past.usedTasks <= w'.past.usedTasks
    && w.past.usedRecordings <= w'.past.usedRecordings
    && w.past.tokens <= w'.past.tokens
    && w.past.leases <= w'.past.leases
    && (forall r :: r in w.db.recordings && r in w'.db.recordings ==>
          r in w'.past.latest && Latest(w, r) <= Latest(w', r))
    && (forall r :: r in w'.db.recordings && r in w.past.usedRecordings ==> r in w.db.recordings)
    && (forall r :: r in w.db.recordings && r in w'.db.recordings && Visible(w', r) ==> Visible(w, r))
    && (forall t :: t in w.past.homes ==> t in w'.past.homes && w'.past.homes[t] == w.past.homes[t])
  }

  // What may happen to the row `t`: nothing, a granted write, birth, or vanishing for good.
  predicate RowStep(w: World, e: Event, w': World, t: TaskId) {
    && (Granted(w, e) && QueueTask(e) == t ==> t in w'.db.tasks && w'.db.tasks[t] == GrantedRow(w, e))
    && (!(Granted(w, e) && QueueTask(e) == t) && t in w.db.tasks && t in w'.db.tasks ==>
          w'.db.tasks[t] == w.db.tasks[t])
    && (t !in w.db.tasks && t in w'.db.tasks ==>
          && t !in w.past.usedTasks && t in w'.past.homes && w'.past.homes[t] == w'.db.tasks[t].recording
          && w'.db.tasks[t].recording in w'.db.recordings
          && (e.InsertRows? || e.LandLate? || e.Retry?) && e.at == Latest(w', w'.db.tasks[t].recording)
          && w'.db.tasks[t] ==
             NewTask(w'.db.tasks[t].recording, w'.db.tasks[t].attempt, w'.db.tasks[t].retryOf, e.at))
    && (t in w.db.tasks && t in w'.db.tasks ==> w.db.tasks[t].recording in w'.db.recordings)
    && (t in w.db.tasks && t !in w'.db.tasks ==> w.db.tasks[t].recording !in w'.db.recordings)
  }

  ghost predicate TableStep(w: World, e: Event, w': World) {
    && Later(w, w')
    && (forall t :: RowStep(w, e, w', t))
    && (forall r :: r in w'.past.latest ==> w'.past.latest[r] <= w'.now)
    && (forall r :: r in w'.db.recordings ==> r in w'.past.latest && r in w'.past.usedRecordings)
    && (forall t :: t in w'.past.homes ==> t in w'.past.usedTasks && w'.past.homes[t] in w'.past.usedRecordings)
    && (Granted(w, e) ==> Latest(w, QueueRecording(e)) <= e.at == Latest(w', QueueRecording(e)))
    && (Granted(w, e) && e.ClaimTask? ==> e.token in w'.past.tokens)
  }

  lemma WrittenTableStep(w: World, e: Event)
    requires RowsInv(w) && Granted(w, e)
    ensures TableStep(w, e, Written(w, e))
  {
  }

  lemma StampedTableStep(w: World, e: Event, r: RecordingId, at: Time)
    requires RowsInv(w) && !Granted(w, e) && TimeOk(w, r, at)
    ensures TableStep(w, e, Stamped(w, r, at))
  {
  }

  lemma RetriedTableStep(w: World, e: Event)
    requires RowsInv(w) && Succeeds(w, e)
    ensures TableStep(w, e, Retried(w, e))
  {
  }

  lemma QueueTableStep(w: World, e: Event)
    requires RowsInv(w) && IsQueueEvent(e)
    ensures TableStep(w, e, Next(w, e))
  {
    QueueShape(w, e);
    if Granted(w, e) {
      WrittenTableStep(w, e);
    } else if Enabled(w, e) {
      StampedTableStep(w, e, QueueRecording(e), e.at);
    }
  }

  lemma RetryTableStep(w: World, e: Event)
    requires RowsInv(w) && e.Retry?
    ensures TableStep(w, e, Next(w, e))
  {
    RetryShape(w, e);
    if Succeeds(w, e) {
      RetriedTableStep(w, e);
    } else if Enabled(w, e) && e.source in w.past.homes {
      StampedTableStep(w, e, w.past.homes[e.source], e.at);
    }
  }

  lemma MarkTableStep(w: World, e: Event)
    requires RowsInv(w) && e.Mark?
    ensures TableStep(w, e, Next(w, e))
  {
    MarkShape(w, e);
  }

  lemma RemoveTableStep(w: World, e: Event)
    requires RowsInv(w) && e.Remove?
    ensures TableStep(w, e, Next(w, e))
  {
    RemoveShape(w, e);
  }

  lemma InsertTableStep(w: World, e: Event)
    requires RowsInv(w) && Inserts(w, e)
    ensures TableStep(w, e, Inserted(w, e))
  {
  }

  lemma QuietTableStep(w: World, e: Event, w': World)
    requires RowsInv(w) && !Granted(w, e)
    requires w'.db == w.db && w'.cfg == w.cfg && w.now <= w'.now && w'.past == w.past
    ensures TableStep(w, e, w')
  {
  }

  lemma EveryTableStep(w: World, e: Event)
    requires RowsInv(w)
    ensures TableStep(w, e, Next(w, e))
  {
    if IsQueueEvent(e) {
      QueueTableStep(w, e);
    } else if e.Retry? {
      RetryTableStep(w, e);
    } else if e.Mark? {
      MarkTableStep(w, e);
    } else if e.Remove? {
      RemoveTableStep(w, e);
    } else if e.Resolve? {
      ResolveShape(w, e);
      QuietTableStep(w, e, Next(w, e));
    } else if Inserts(w, e) {
      InsertShape(w, e);
      InsertTableStep(w, e);
    } else {
      OtherShape(w, e);
      QuietTableStep(w, e, Next(w, e));
    }
  }

  // A table step, however it came about, keeps every row well formed.
  lemma RowsKeptBy(w: World, e: Event, w': World)
    requires RowsInv(w) && TableStep(w, e, w')
    ensures RowsInv(w')
  {
    forall t | t in w'.db.tasks ensures RowInv(w', t) {
      assert RowStep(w, e, w', t);
      var row' := w'.db.tasks[t];
      if t in w.db.tasks {
        var row := w.db.tasks[t];
        assert RowInv(w, t);
        var seen := Latest(w, row.recording);
        if Granted(w, e) && QueueTask(e) == t {
          RowKept(w.cfg, row, QueueOp(e), seen, e.at);
        } else {
          RowOkLater(w.cfg, row, seen, Latest(w', row.recording));
        }
      } else {
        NewTaskOk(w.cfg, row'.recording, row'.attempt, row'.retryOf, e.at);
      }
    }
  }

  lemma RowsKept(w: World, e: Event)
    requires RowsInv(w)
    ensures RowsInv(Next(w, e)) && TableStep(w, e, Next(w, e))
  {
    EveryTableStep(w, e);
    RowsKeptBy(w, e, Next(w, e));
  }

  lemma {:induction false} RowsAlways(w: World, es: seq<Event>)
    requires RowsInv(w)
    ensures RowsInv(Run(w, es))
    decreases |es|
  {
    if es != [] {
      RowsKept(w, es[0]);
      RowsAlways(Next(w, es[0]), es[1..]);
    }
  }

  // What was configured, issued, handed out or used stays so.
  lemma {:induction false} PastGrows(w: World, es: seq<Event>)
    requires RowsInv(w)
    ensures var end := Run(w, es);
            && end.cfg == w.cfg && w.now <= end.now
            && w.past.tokens <= end.past.tokens && w.past.leases <= end.past.leases
            && w.past.usedRecordings <= end.past.usedRecordings && w.past.usedTasks <= end.past.usedTasks
    decreases |es|
  {
    if es != [] {
      RowsKept(w, es[0]);
      PastGrows(Next(w, es[0]), es[1..]);
    }
  }
}
