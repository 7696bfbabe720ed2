/** Closed forms of the transactions: each is one of a few explicit updates of the world. */
module Shapes {
  import opened Domain
  import opened TaskRow
  import opened System

  // A queue transaction that passes its gate and writes the row.
  predicate Granted(w: World, e: Event) {
    && IsQueueEvent(e) && Enabled(w, e)
    && Visible(w, QueueRecording(e))
    && QueueTask(e) in w.db.tasks
    && (IsLeaseEvent(e) ==> w.db.tasks[QueueTask(e)].recording == QueueRecording(e))
    && Accepts(w.db.tasks[QueueTask(e)], QueueOp(e), e.at)
  }

  function Stamped(w: World, r: RecordingId, at: Time): World {
    if r in w.db.recordings then w.(past := w.past.(latest := w.past.latest[r := at])) else w
  }

  function GrantedRow(w: World, e: Event): Task
    requires Granted(w, e)
  {
    Apply(w.cfg, w.db.tasks[QueueTask(e)], QueueOp(e), e.at)
  }

  function NewLeases(w: World, e: Event): set<Lease>
    requires Granted(w, e)
  {
    if e.ClaimTask? then {LeaseOf(e, w.db.recordings[e.recording].key, GrantedRow(w, e))}
    else if e.SaveTranscript? then {e.lease.(stage := Summarizing, transcript := Some(e.text))}
    else {}
  }

  function Written(w: World, e: Event): World
    requires Granted(w, e)
  {
    w.(
    db := w.db.(tasks := w.db.tasks[QueueTask(e) := GrantedRow(w, e)]),
    past := w.past.(
      tokens := w.past.tokens + (if e.ClaimTask? then {e.token} else {}),
      leases := w.past.leases + NewLeases(w, e),
      latest := w.past.latest[QueueRecording(e) := e.at]))
  }

  lemma QueueDecision(w: World, e: Event)
    requires IsQueueEvent(e) && Enabled(w, e)
    ensures Read(w, e).target == Some(QueueRecording(e))
    ensures Body(w.cfg, e, Read(w, e)) ==
            if Granted(w, e) then PutTask(QueueTask(e), GrantedRow(w, e)) else Keep
    ensures Read(w, e).recording == Get(w.db.recordings, Some(QueueRecording(e)))
  {
  }

  lemma QueueInstall(w: World, e: Event, v: View)
    requires Granted(w, e)
    requires v.target == Some(QueueRecording(e)) && v.recording == Some(w.db.recordings[QueueRecording(e)])
    ensures Install(w, e, v, PutTask(QueueTask(e), GrantedRow(w, e))) == Written(w, e)
  {
    assert w.past.tokens + {} == w.past.tokens;
    assert w.past.leases + {} == w.past.leases;
  }

  lemma QueueShape(w: World, e: Event)
    requires IsQueueEvent(e)
    ensures Next(w, e) ==
            if Granted(w, e) then Written(w, e)
            else if Enabled(w, e) then Stamped(w, QueueRecording(e), e.at)
            else w
  {
    if Enabled(w, e) {
      QueueDecision(w, e);
      if Granted(w, e) {
        QueueInstall(w, e, Read(w, e));
      }
    }
  }

  // A retry that inserts a successor.
  ghost predicate Succeeds(w: World, e: Event) {
    && e.Retry? && Enabled(w, e)
    && e.source in w.past.homes && Visible(w, w.past.homes[e.source])
    && e.source in w.db.tasks && w.db.tasks[e.source].status.Failed?
    && Successor(w.db.tasks, e.source).None?
  }

  ghost function Retried(w: World, e: Event): World
    requires Succeeds(w, e)
  {
    var r := w.past.homes[e.source];
    w.(
    db := w.db.(tasks := w.db.tasks[
      e.created := NewTask(r, w.db.tasks[e.source].attempt + 1, Some(e.source), e.at)]),
    past := w.past.(
      homes := w.past.homes[e.created := r],
      usedTasks := w.past.usedTasks + {e.created},
      latest := w.past.latest[r := e.at]))
  }

  lemma RetryShape(w: World, e: Event)
    requires e.Retry?
    ensures Next(w, e) ==
            if Succeeds(w, e) then Retried(w, e)
            else if Enabled(w, e) && e.source in w.past.homes then Stamped(w, w.past.homes[e.source], e.at)
            else w
  {
  }

  function MarkedRow(row: Recording, when: Time): Recording {
    if row.deletedAt.None? then row.(deletedAt := Some(when)) else row
  }

  function Marked(w: World, e: Event): World
    requires e.Mark? && e.recording in w.db.recordings
  {
    var row := w.db.recordings[e.recording];
    w.(
    db := w.db.(recordings := w.db.recordings[e.recording := MarkedRow(row, e.when)]),
    fs := w.fs.(deletions := w.fs.deletions[e.call := Deletion(e.recording, row.key, false)]))
  }

  lemma MarkShape(w: World, e: Event)
    requires e.Mark?
    ensures Next(w, e) ==
            if e.call !in w.fs.deletions && e.recording in w.db.recordings then Marked(w, e) else w
  {
  }

  // The recheck of the second delete transaction.
  predicate Removes(w: World, e: Event) {
    && e.Remove? && Enabled(w, e)
    && var d := w.fs.deletions[e.call];
    && d.recording in w.db.recordings
    && w.db.recordings[d.recording].deletedAt.Some?
    && w.db.recordings[d.recording].key == d.key
  }

  function Without(db: Tables, r: RecordingId): Tables {
    Tables(db.recordings - {r}, map t | t in db.tasks && db.tasks[t].recording != r :: db.tasks[t])
  }

  lemma RemoveShape(w: World, e: Event)
    requires e.Remove?
    ensures Next(w, e) ==
            if !Enabled(w, e) then w
            else w.(
              db := if Removes(w, e) then Without(w.db, w.fs.deletions[e.call].recording) else w.db,
              fs := w.fs.(deletions := w.fs.deletions - {e.call}))
  {
  }

  ghost function Resolved(w: World, e: Event): Upload
    requires e.Resolve? && Enabled(w, e)
  {
    var u := w.fs.uploads[e.call];
    if e.hit.None? then NextRound(u)
    else
      var row := w.db.recordings[e.hit.value];
      var first := FirstTask(w.db.tasks, e.hit.value);
      u.(phase := Discarding(
        if row.deletedAt.Some? then RecordingDeleting
        else if first.None? then UploadConflict
        else Duplicate(e.hit.value, first.value, w.db.tasks[first.value].status)))
  }

  lemma ResolveShape(w: World, e: Event)
    requires e.Resolve?
    ensures Next(w, e) == if Enabled(w, e) then WithUpload(w, e.call, Resolved(w, e)) else w
  {
  }

  // Rows that are really inserted, at once or late.
  predicate Inserts(w: World, e: Event) {
    (e.InsertRows? && MayInsert(w, e) && Commits(w, e)) || (e.LandLate? && MayLand(w, e))
  }

  // The upload after its rows landed.
  function AfterLanding(w: World, e: Event): Upload
    requires Inserts(w, e)
  {
    if e.InsertRows? then AfterInsert(w, e) else w.fs.uploads[e.call].(landed := Some(e.recording))
  }

  function Inserted(w: World, e: Event): World
    requires Inserts(w, e)
  {
    var u := w.fs.uploads[e.call];
    w.(
    db := Tables(
      w.db.recordings[e.recording := Recording(u.filename, u.key, u.audio, e.at, None)],
      w.db.tasks[e.task := NewTask(e.recording, 1, None, e.at)]),
    fs := w.fs.(
      uploads := w.fs.uploads[e.call := AfterLanding(w, e)],
      owners := w.fs.owners[u.key := e.recording]),
    past := w.past.(
      usedRecordings := w.past.usedRecordings + {e.recording},
      usedTasks := w.past.usedTasks + {e.task},
      latest := w.past.latest[e.recording := e.at],
      homes := w.past.homes[e.task := e.recording],
      firsts := w.past.firsts[e.recording := e.task]))
  }

  lemma InsertShape(w: World, e: Event)
    requires Inserts(w, e)
    ensures Next(w, e) == Inserted(w, e)
  {
  }

  // Everything else leaves the tables, and what was handed out, alone.
  lemma OtherShape(w: World, e: Event)
    requires !IsTransaction(e) && !Inserts(w, e)
    ensures Next(w, e).db == w.db && Next(w, e).cfg == w.cfg && w.now <= Next(w, e).now
    ensures Next(w, e).past == w.past
  {
  }

  // ---------- One upload, one recording, the disk ----------

  // Where an upload stands after the step.
  ghost function Moved(w: World, e: Event, c: CallId): Upload
    requires c in w.fs.uploads
  {
    if e.Resolve? && e.call == c && Enabled(w, e) then Resolved(w, e)
    else if e.InsertRows? && e.call == c && MayInsert(w, e) then AfterInsert(w, e)
    else if e.LandLate? && e.call == c && MayLand(w, e) then w.fs.uploads[c].(landed := Some(e.recording))
    else if (e.FailLookup? || e.Confirm? || e.Discard? || e.CrashUpload?) && e.call == c then
      UploadProgress(w, w.fs.uploads[c], e)
    else w.fs.uploads[c]
  }

  predicate SameDisk(w: World, w': World) {
    w'.fs.uploads == w.fs.uploads && w'.fs.files == w.fs.files && w'.fs.savers == w.fs.savers
  }

  lemma TransactionLeavesDisk(w: World, e: Event)
    requires IsTransaction(e) && !e.Resolve?
    ensures SameDisk(w, Next(w, e))
  {
    if IsQueueEvent(e) {
      QueueShape(w, e);
    } else if e.Retry? {
      RetryShape(w, e);
    } else if e.Mark? {
      MarkShape(w, e);
    } else {
      RemoveShape(w, e);
    }
  }

  lemma InsertMoves(w: World, e: Event)
    requires e.InsertRows? || e.LandLate?
    ensures Next(w, e).fs.uploads ==
            if e.InsertRows? && MayInsert(w, e) then w.fs.uploads[e.call := AfterInsert(w, e)]
            else if e.LandLate? && MayLand(w, e) then
              w.fs.uploads[e.call := w.fs.uploads[e.call].(landed := Some(e.recording))]
            else w.fs.uploads
  {
  }

  lemma ProgressMoves(w: World, e: Event, c: CallId)
    requires e.FailLookup? || e.Confirm? || e.Discard? || e.CrashUpload?
    ensures c in w.fs.uploads ==>
              c in UploadStep(w, e).fs.uploads && UploadStep(w, e).fs.uploads[c] == Moved(w, e, c)
    ensures c !in w.fs.uploads ==> c !in UploadStep(w, e).fs.uploads
  {
  }

  lemma UploadShape(w: World, e: Event, c: CallId)
    ensures c in w.fs.uploads ==> c in Next(w, e).fs.uploads && Next(w, e).fs.uploads[c] == Moved(w, e, c)
    ensures c !in w.fs.uploads && c in Next(w, e).fs.uploads ==> Next(w, e).fs.uploads[c].phase.Saved?
  {
    if e.InsertRows? || e.LandLate? {
      InsertMoves(w, e);
    } else {
      OtherUploadShape(w, e, c);
    }
  }

  lemma OtherUploadShape(w: World, e: Event, c: CallId)
    requires !e.InsertRows? && !e.LandLate?
    ensures c in w.fs.uploads ==> c in Next(w, e).fs.uploads && Next(w, e).fs.uploads[c] == Moved(w, e, c)
    ensures c !in w.fs.uploads && c in Next(w, e).fs.uploads ==> Next(w, e).fs.uploads[c].phase.Saved?
  {
    if e.Resolve? {
      ResolveShape(w, e);
    } else if IsTransaction(e) {
      TransactionLeavesDisk(w, e);
    } else if e.FailLookup? || e.Confirm? || e.Discard? || e.CrashUpload? {
      ProgressMoves(w, e, c);
    }
  }

  // Keys are never saved twice, so a file that is gone stays gone.
  lemma DiskShape(w: World, e: Event, k: Key)
    ensures k in w.fs.savers ==> k in Next(w, e).fs.savers
    ensures k in w.fs.savers && k !in w.fs.files ==> k !in Next(w, e).fs.files
  {
    if e.Resolve? {
      ResolveShape(w, e);
    } else if IsTransaction(e) {
      TransactionLeavesDisk(w, e);
    }
  }

  lemma RecordingShape(w: World, e: Event, r: RecordingId)
    requires r in w.db.recordings ==> r in w.past.usedRecordings
    ensures var w' := Next(w, e);
            if r in w.db.recordings then
              if r in w'.db.recordings then
                w'.db.recordings[r] ==
                (if e.Mark? && e.recording == r && e.call !in w.fs.deletions
                 then MarkedRow(w.db.recordings[r], e.when) else w.db.recordings[r])
              else Removes(w, e) && w.fs.deletions[e.call].recording == r
            else r in w'.db.recordings ==> Inserts(w, e) && e.recording == r
  {
    if IsQueueEvent(e) {
      QueueShape(w, e);
    } else if e.Retry? {
      RetryShape(w, e);
    } else if e.Mark? {
      MarkShape(w, e);
    } else if e.Remove? {
      RemoveShape(w, e);
    } else if e.Resolve? {
      ResolveShape(w, e);
    } else if Inserts(w, e) {
      InsertShape(w, e);
    } else {
      OtherShape(w, e);
    }
  }

  // A step of another call leaves this call's progress alone.
  lemma CallUndisturbed(w: World, e: Event, c: CallId)
    requires CallOf(e) != Some(c)
    ensures Get(Next(w, e).fs.uploads, Some(c)) == Get(w.fs.uploads, Some(c))
    ensures Get(Next(w, e).fs.deletions, Some(c)) == Get(w.fs.deletions, Some(c))
  {
    if IsQueueEvent(e) {
      QueueShape(w, e);
    } else if e.Retry? {
      RetryShape(w, e);
    } else if e.Mark? {
      MarkShape(w, e);
    } else if e.Remove? {
      RemoveShape(w, e);
    } else if e.Resolve? {
      ResolveShape(w, e);
    }
  }
}
