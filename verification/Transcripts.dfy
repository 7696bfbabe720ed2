/** The transcript is written once, and the published summary was computed from it. */
module Transcripts {
  import opened Domain
  import opened System
  import opened Shapes
  import opened Rows
  import opened Fencing
  import opened History

  // A snapshot agrees with the row as long as its token is the row's token.
  predicate LeaseAgrees(w: World, lease: Lease) {
    && lease.token in w.past.tokens
    && lease.task in w.past.homes && w.past.homes[lease.task] == lease.recording
    && Active(lease.stage)
    && (lease.task in w.db.tasks && w.db.tasks[lease.task].token == Some(lease.token) ==>
          && (lease.stage.Transcribing? ==> lease.transcript.None?)
          && (lease.stage.Summarizing? ==>
                && w.db.tasks[lease.task].status.Summarizing?
                && w.db.tasks[lease.task].transcript == lease.transcript))
  }

  predicate LeasesInv(w: World) {
    forall lease :: lease in w.past.leases ==> LeaseAgrees(w, lease)
  }

  // As long as the lease holds its row, the row is in the stage of the snapshot.
  predicate LeaseIsFresh(w: World, lease: Lease) {
    lease.task in w.db.tasks && w.db.tasks[lease.task].token == Some(lease.token) ==>
      w.db.tasks[lease.task].status == lease.stage
  }

  lemma GrantedKeepsLeases(w: World, e: Event)
    requires RowsInv(w) && LeasesInv(w) && Granted(w, e)
    ensures LeasesInv(Written(w, e))
  {
    var w' := Written(w, e);
    assert RowInv(w, QueueTask(e));
    forall lease | lease in w'.past.leases ensures LeaseAgrees(w', lease) {
      if lease in w.past.leases {
        assert LeaseAgrees(w, lease);
      }
    }
  }

  lemma LeasesKeptBy(w: World, e: Event, w': World)
    requires RowsInv(w) && LeasesInv(w) && TableStep(w, e, w')
    requires !Granted(w, e) && w'.past.leases == w.past.leases
    ensures LeasesInv(w')
  {
    forall lease | lease in w'.past.leases ensures LeaseAgrees(w', lease) {
      assert LeaseAgrees(w, lease);
      assert RowStep(w, e, w', lease.task);
    }
  }

  lemma SameLeases(w: World, e: Event)
    requires !Granted(w, e)
    ensures Next(w, e).past.leases == w.past.leases
  {
    if IsQueueEvent(e) {
      QueueShape(w, e);
    } else if e.Retry? {
      RetryShape(w, e);
    } else if e.Mark? {
      MarkShape(w, e);
    } else if e.Remove? {
      RemoveShape(w, e);
    } else if e.Resolve? {
      ResolveShape(w, e);
    } else if Inserts(w, e) {
      InsertShape(w, e);
    } else {
      OtherShape(w, e);
    }
  }

  lemma LeasesKept(w: World, e: Event)
    requires RowsInv(w) && LeasesInv(w)
    ensures LeasesInv(Next(w, e))
  {
    if Granted(w, e) {
      QueueShape(w, e);
      GrantedKeepsLeases(w, e);
    } else {
      RowsKept(w, e);
      SameLeases(w, e);
      LeasesKeptBy(w, e, Next(w, e));
    }
  }

  // Any still-owned summarizing snapshot carries exactly the stored transcript.
  lemma {:induction false} OwnedSnapshotIsExact(w: World, es: seq<Event>, lease: Lease, at: Time)
    requires RowsInv(w) && LeasesInv(w)
    requires lease in Run(w, es).past.leases && lease.stage.Summarizing? && Owned(Run(w, es), lease, at)
    ensures var row := Run(w, es).db.tasks[lease.task];
            row.status.Summarizing? && row.transcript.Some? && row.transcript == lease.transcript
    decreases |es|
  {
    if es == [] {
      assert LeaseAgrees(w, lease) && RowInv(w, lease.task);
    } else {
      RowsKept(w, es[0]);
      LeasesKept(w, es[0]);
      OwnedSnapshotIsExact(Next(w, es[0]), es[1..], lease, at);
    }
  }

  // The transcript is written at most once per task.
  lemma {:induction false} TranscriptWrittenOnce(w: World, es: seq<Event>, t: TaskId)
    requires RowsInv(w) && t in w.db.tasks && w.db.tasks[t].transcript.Some?
    requires t in Run(w, es).db.tasks
    ensures Run(w, es).db.tasks[t].transcript == w.db.tasks[t].transcript
    ensures !Run(w, es).db.tasks[t].status.Transcribing?
    decreases |es|
  {
    assert RowInv(w, t);
    if es != [] {
      FirstStep(w, es, t);
      TranscriptWrittenOnce(Next(w, es[0]), es[1..], t);
    }
  }

  // The transcript landed but its caller saw an error: whatever happens next, a failure reported
  // with the old-stage snapshot spends no retry and changes no row.
  lemma LostReplySpendsNoBudget(w: World, e: Event, es: seq<Event>, late: Event)
    requires RowsInv(w) && e.SaveTranscript? && Granted(w, e) && e.lease.stage.Transcribing?
    requires late.FailTask? && late.lease == e.lease
    ensures var end := Run(Next(w, e), es); Next(end, late).db == end.db
  {
    var w1 := Next(w, e);
    var t := e.lease.task;
    RowsKept(w, e);
    assert RowStep(w, e, w1, t);
    var end := Run(w1, es);
    RowsAlways(w1, es);
    if t in end.db.tasks {
      TranscriptWrittenOnce(w1, es, t);
    }
    QueueShape(end, late);
  }

  // ---------- The pipeline's discipline ----------

  // Workers present only snapshots they were given, and complete only summarizing ones.
  predicate ByWorker(w: World, e: Event) {
    && (IsLeaseEvent(e) ==> e.lease in w.past.leases)
    && (e.CompleteTask? ==> e.lease.stage.Summarizing?)
  }

  ghost predicate WorkerRun(w: World, es: seq<Event>)
    decreases |es|
  {
    es != [] ==> ByWorker(w, es[0]) && WorkerRun(Next(w, es[0]), es[1..])
  }

  lemma {:induction false} WorkerRunAppend(w: World, es: seq<Event>, more: seq<Event>)
    ensures WorkerRun(w, es + more) <==> WorkerRun(w, es) && WorkerRun(Run(w, es), more)
    decreases |es|
  {
    hide Next, ByWorker;
    if es == [] {
      assert es + more == more;
    } else {
      assert (es + more)[1..] == es[1..] + more;
      WorkerRunAppend(Next(w, es[0]), es[1..], more);
    }
  }

  // The accepted completion of a task within a run.
  ghost function Completion(w: World, es: seq<Event>, t: TaskId): Option<Event>
    decreases |es|
  {
    if es == [] then None
    else if Granted(w, es[0]) && es[0].CompleteTask? && es[0].lease.task == t then Some(es[0])
    else Completion(Next(w, es[0]), es[1..], t)
  }

  // A done task's summary is the one computed from the transcript it stores.
  lemma {:induction false} SummaryComesFromTranscript(w: World, es: seq<Event>, t: TaskId)
    requires RowsInv(w) && LeasesInv(w) && WorkerRun(w, es)
    requires t in w.db.tasks ==> !w.db.tasks[t].status.Done?
    requires t in Run(w, es).db.tasks && Run(w, es).db.tasks[t].status.Done?
    ensures var row := Run(w, es).db.tasks[t];
            var done := Completion(w, es, t);
            && done.Some? && done.value.CompleteTask?
            && row.summary == Some(done.value.summary)
            && row.transcript.Some? && done.value.lease.transcript == row.transcript
    decreases |es|
  {
    if es != [] {
      var w1 := Next(w, es[0]);
      FirstStep(w, es, t);
      LeasesKept(w, es[0]);
      if Granted(w, es[0]) && es[0].CompleteTask? && es[0].lease.task == t {
        assert LeaseAgrees(w, es[0].lease) && RowInv(w, t);
        TerminalIsFinal(w1, es[1..], t);
      } else {
        SummaryComesFromTranscript(w1, es[1..], t);
      }
    }
  }
}
