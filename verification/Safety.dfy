/** What uploads, deletions and crashes guarantee about recordings and their files, over whole runs. */
module Safety {
  import opened Domain
  import opened TaskRow
  import opened System
  import opened Shapes
  import opened Rows
  import opened Transcripts
  import opened Chain
  import opened Files

  ghost predicate Inv(w: World) {
    RowsInv(w) && LeasesInv(w) && ChainInv(w) && FilesInv(w)
  }

  lemma StartInv(w: World)
    requires Start(w)
    ensures Inv(w)
  {
  }

  lemma Kept(w: World, e: Event)
    requires Inv(w)
    ensures Inv(Next(w, e)) && TableStep(w, e, Next(w, e))
  {
    RowsKept(w, e);
    LeasesKept(w, e);
    ChainKept(w, e);
    FilesKept(w, e);
  }

  lemma {:induction false} Always(w: World, es: seq<Event>)
    requires Inv(w)
    ensures Inv(Run(w, es))
    decreases |es|
  {
    if es != [] {
      Kept(w, es[0]);
      Always(Next(w, es[0]), es[1..]);
    }
  }

  // ---------- File safety ----------

  // Whatever crashes, races and unreported commits happen, a visible recording has its file, with
  // the bytes it was registered with.
  lemma VisibleHasFile(w: World, es: seq<Event>, r: RecordingId)
    requires Start(w) && Visible(Run(w, es), r)
    ensures var end := Run(w, es);
            var row := end.db.recordings[r];
            row.key in end.fs.files && end.fs.files[row.key] == row.audio
  {
    StartInv(w);
    Always(w, es);
    assert RecordingOk(Run(w, es), r);
  }

  // ---------- Orphans ----------

  predicate Referenced(w: World, k: Key) {
    exists r :: r in w.db.recordings && w.db.recordings[r].key == k
  }

  predicate InFlight(u: Upload) {
    !u.phase.Ended? && !u.phase.Crashed?
  }

  predicate LostTrack(u: Upload) {
    u.phase.Ended? && u.phase.outcome.Uncertain?
  }

  predicate CleanupFailed(u: Upload) {
    u.phase.Ended? && u.phase.leftover
  }

  // A stored file no row refers to belongs to one upload, which never landed and is in exactly
  // one of four situations.
  lemma OrphanHasOneCause(w: World, k: Key)
    requires Inv(w) && k in w.fs.files && !Referenced(w, k)
    ensures k in w.fs.savers && w.fs.savers[k] in w.fs.uploads
    ensures var u := w.fs.uploads[w.fs.savers[k]];
            && u.key == k && u.landed.None? && w.fs.files[k] == u.audio
            && One(InFlight(u)) + One(u.phase.Crashed?) + One(LostTrack(u)) + One(CleanupFailed(u)) == 1
    ensures forall c :: c in w.fs.uploads && w.fs.uploads[c].key == k ==> c == w.fs.savers[k]
  {
    assert KeyOk(w, k);
    var c := w.fs.savers[k];
    assert UploadOk(w, c);
    assert k !in w.fs.owners by {
      assert forall r :: r in w.db.recordings ==> RecordingOk(w, r);
    }
    forall d | d in w.fs.uploads && w.fs.uploads[d].key == k ensures d == c {
      assert UploadOk(w, d);
    }
  }

  // With no upload under way, the unreferenced files are exactly those of the uploads that never
  // landed and crashed, lost track of their COMMIT, or failed to clean up.
  lemma QuiescentOrphans(w: World, k: Key)
    requires Inv(w)
    requires forall c :: c in w.fs.uploads ==> !InFlight(w.fs.uploads[c])
    ensures (k in w.fs.files && !Referenced(w, k)) <==>
            (k in w.fs.savers &&
             var u := w.fs.uploads[w.fs.savers[k]];
             u.landed.None? && (u.phase.Crashed? || LostTrack(u) || CleanupFailed(u)))
  {
    if k in w.fs.savers {
      assert KeyOk(w, k);
      assert UploadOk(w, w.fs.savers[k]);
      if k in w.fs.owners && w.fs.owners[k] in w.db.recordings {
        assert RecordingOk(w, w.fs.owners[k]);
      }
      if Referenced(w, k) {
        var r :| r in w.db.recordings && w.db.recordings[r].key == k;
        assert RecordingOk(w, r);
      }
    }
  }

  // A referenced file is missing only while its recording is being deleted.
  lemma MissingMeansDeleting(w: World, r: RecordingId)
    requires Inv(w) && r in w.db.recordings && w.db.recordings[r].key !in w.fs.files
    ensures w.db.recordings[r].deletedAt.Some?
  {
    assert RecordingOk(w, r);
  }

  // ---------- What an upload's answer means ----------

  // `Created`: this call's own row, key and first task are the ones that were committed.
  // Any other answer that is not `Uncertain`: its own file is gone unless the cleanup failed.
  // `Uncertain`: the file is still there, unless the rows landed and were deleted since.
  ghost predicate AnswerTrue(w: World, u: Upload) {
    u.phase.Ended? &&
    match u.phase.outcome
    case Created(r, t) =>
      && u.landed == Some(r)
      && (r in w.db.recordings ==>
            && w.db.recordings[r].filename == u.filename && w.db.recordings[r].key == u.key
            && w.db.recordings[r].audio == u.audio && IsFirst(w.db.tasks, r, t))
    case Uncertain =>
      (u.landed.None? || Visible(w, u.landed.value)) ==> u.key in w.fs.files
    case _ =>
      u.landed.None? && (u.key in w.fs.files <==> u.phase.leftover)
  }

  lemma AnswerIsTrueNow(w: World, c: CallId)
    requires Inv(w) && c in w.fs.uploads && w.fs.uploads[c].phase.Ended?
    ensures AnswerTrue(w, w.fs.uploads[c])
  {
    var u := w.fs.uploads[c];
    assert UploadOk(w, c);
    if u.landed.Some? && u.landed.value in w.db.recordings {
      assert RecordingOk(w, u.landed.value);
    }
  }

  lemma AnswerIsTrue(w: World, es: seq<Event>, c: CallId)
    requires Start(w) && c in Run(w, es).fs.uploads && Run(w, es).fs.uploads[c].phase.Ended?
    ensures AnswerTrue(Run(w, es), Run(w, es).fs.uploads[c])
  {
    StartInv(w);
    Always(w, es);
    AnswerIsTrueNow(Run(w, es), c);
  }

  // A committed upload gets its recording, its key and its attempt-1 task in one step.
  lemma CommitIsAtomic(w: World, e: Event)
    requires Inv(w) && Inserts(w, e)
    ensures var w' := Next(w, e);
            var u := w.fs.uploads[e.call];
            && Visible(w', e.recording) && e.recording !in w.db.recordings
            && w'.db.recordings[e.recording] == Recording(u.filename, u.key, u.audio, e.at, None)
            && FirstTask(w'.db.tasks, e.recording) == Some(e.task)
            && w'.db.tasks[e.task] == NewTask(e.recording, 1, None, e.at)
            && (forall r :: r in w.db.recordings ==> r in w'.db.recordings && w'.db.recordings[r] == w.db.recordings[r])
            && (forall t :: t in w.db.tasks ==> t in w'.db.tasks && w'.db.tasks[t] == w.db.tasks[t])
  {
    InsertShape(w, e);
    Kept(w, e);
  }

  // A lookup that is answered confirms an upload exactly if its rows landed and are still visible.
  lemma LookupIsExact(w: World, c: CallId)
    requires Inv(w) && c in w.fs.uploads && w.fs.uploads[c].phase.Confirming?
    ensures var u := w.fs.uploads[c];
            FoundCommitted(w, u, u.phase.recording, u.phase.task) <==>
            u.landed == Some(u.phase.recording) && Visible(w, u.phase.recording)
  {
    var u := w.fs.uploads[c];
    var r := u.phase.recording;
    assert UploadOk(w, c);
    if Visible(w, r) {
      assert RecordingOk(w, r) && IsFirst(w.db.tasks, r, w.past.firsts[r]);
    }
  }

  // Why an unconfirmed COMMIT must keep its file: though a lookup found nothing, the rows may still
  // appear, and without the file they would be a visible recording that lost its audio.
  lemma UncertainFileIsNeeded(w: World, e: Event)
    requires Inv(w) && e.LandLate? && MayLand(w, e)
    ensures var key := w.fs.uploads[e.call].key;
            var without := w.(fs := w.fs.(files := w.fs.files - {key}));
            && key in w.fs.files
            && Visible(Next(w, e), e.recording) && Next(w, e).db.recordings[e.recording].key == key
            && Visible(Next(without, e), e.recording) && key !in Next(without, e).fs.files
    ensures w.fs.uploads[e.call].phase.Ended? ==> w.fs.uploads[e.call].phase.outcome.Uncertain?
  {
    assert UploadOk(w, e.call);
  }

  // The lookup after a hash conflict answers with a visible recording of the same content and its
  // attempt-1 task; the branch for a recording without such a task is unreachable.
  lemma LookupAnswers(w: World, e: Event)
    requires Inv(w) && e.Resolve? && Enabled(w, e)
    ensures var u := w.fs.uploads[e.call];
            var u' := Resolved(w, e);
            match e.hit
            case None =>
              if u.round < 2 then u' == u.(round := u.round + 1, phase := Saved)
              else u'.phase == Discarding(UploadConflict)
            case Some(r) =>
              if Visible(w, r) then
                w.past.firsts[r] in w.db.tasks && u'.phase ==
                Discarding(Duplicate(r, w.past.firsts[r], w.db.tasks[w.past.firsts[r]].status))
              else u'.phase == Discarding(RecordingDeleting)
  {
    if e.hit.Some? {
      assert IsFirst(w.db.tasks, e.hit.value, w.past.firsts[e.hit.value]);
    }
  }

  // The world in which an upload's conflict was answered with a duplicate.
  ghost function AnsweredIn(w: World, es: seq<Event>, c: CallId): Option<World>
    decreases |es|
  {
    if es == [] then None
    else if es[0].Resolve? && es[0].call == c && Enabled(w, es[0]) && es[0].hit.Some? then Some(w)
    else AnsweredIn(Next(w, es[0]), es[1..], c)
  }

  predicate AnsweredDuplicate(w: World, c: CallId) {
    && c in w.fs.uploads
    && (w.fs.uploads[c].phase.Discarding? || w.fs.uploads[c].phase.Ended?)
    && w.fs.uploads[c].phase.outcome.Duplicate?
  }

  lemma UploadStaysPut(w: World, e: Event, c: CallId)
    ensures AnsweredDuplicate(Next(w, e), c) && !AnsweredDuplicate(w, c) ==>
              && e.Resolve? && e.call == c && Enabled(w, e) && e.hit.Some?
              && Next(w, e).fs.uploads[c] == Resolved(w, e)
    ensures AnsweredDuplicate(w, c) && AnsweredDuplicate(Next(w, e), c) ==>
              && Next(w, e).fs.uploads[c].phase.outcome == w.fs.uploads[c].phase.outcome
              && Next(w, e).fs.uploads[c].audio == w.fs.uploads[c].audio
  {
    UploadShape(w, e, c);
  }

  ghost predicate RealDuplicate(seen: World, u: Upload) {
    && (u.phase.Discarding? || u.phase.Ended?) && u.phase.outcome.Duplicate?
    && Visible(seen, u.phase.outcome.recording)
    && seen.db.recordings[u.phase.outcome.recording].audio.digest == u.audio.digest
    && IsFirst(seen.db.tasks, u.phase.outcome.recording, u.phase.outcome.task)
    && seen.db.tasks[u.phase.outcome.task].status == u.phase.outcome.status
  }

  lemma AnswerIsReal(w: World, e: Event)
    requires Inv(w) && e.Resolve? && Enabled(w, e)
    ensures e.hit.Some? && Visible(w, e.hit.value) ==> RealDuplicate(w, Resolved(w, e))
    ensures !(e.hit.Some? && Visible(w, e.hit.value)) ==>
              Resolved(w, e).phase.Saved? || !Resolved(w, e).phase.outcome.Duplicate?
  {
    LookupAnswers(w, e);
    if e.hit.Some? {
      assert IsFirst(w.db.tasks, e.hit.value, w.past.firsts[e.hit.value]);
    }
  }

  // `(r, False)`: when it was decided, `r` was visible, held the same content, and the answer's
  // task was its attempt-1 task.
  lemma {:induction false} DuplicateWasReal(w: World, es: seq<Event>, c: CallId)
    requires Inv(w) && !AnsweredDuplicate(w, c) && AnsweredDuplicate(Run(w, es), c)
    ensures AnsweredIn(w, es, c).Some?
    ensures RealDuplicate(AnsweredIn(w, es, c).value, Run(w, es).fs.uploads[c])
    decreases |es|
  {
    if es != [] {
      var w1 := Next(w, es[0]);
      Kept(w, es[0]);
      UploadStaysPut(w, es[0], c);
      if AnsweredDuplicate(w1, c) {
        AnswerIsReal(w, es[0]);
        AnswerStays(w1, es[1..], c);
      } else {
        NotYetAnswered(w, es[0], es[1..], c);
        DuplicateWasReal(w1, es[1..], c);
      }
    }
  }

  // A lookup that found a row but gave no duplicate ends the matter.
  lemma NotYetAnswered(w: World, e: Event, es: seq<Event>, c: CallId)
    requires Inv(w) && !AnsweredDuplicate(Next(w, e), c) && AnsweredDuplicate(Run(Next(w, e), es), c)
    ensures !(e.Resolve? && e.call == c && Enabled(w, e) && e.hit.Some?)
  {
    hide Next, Run, Inv;
    if e.Resolve? && e.call == c && Enabled(w, e) && e.hit.Some? {
      Kept(w, e);
      FoundRowEnds(w, e);
      RefusalStays(Next(w, e), es, c);
    }
  }

  lemma FoundRowEnds(w: World, e: Event)
    requires Inv(w) && e.Resolve? && Enabled(w, e) && e.hit.Some?
    ensures AnsweredDuplicate(Next(w, e), e.call) || Over(Next(w, e), e.call)
  {
    UploadShape(w, e, e.call);
    LookupAnswers(w, e);
  }

  lemma {:induction false} AnswerStays(w: World, es: seq<Event>, c: CallId)
    requires Inv(w) && AnsweredDuplicate(w, c) && AnsweredDuplicate(Run(w, es), c)
    ensures Run(w, es).fs.uploads[c].phase.outcome == w.fs.uploads[c].phase.outcome
    ensures Run(w, es).fs.uploads[c].audio == w.fs.uploads[c].audio
    decreases |es|
  {
    if es != [] {
      var w1 := Next(w, es[0]);
      Kept(w, es[0]);
      UploadStaysPut(w, es[0], c);
      if AnsweredDuplicate(w1, c) {
        AnswerStays(w1, es[1..], c);
      } else {
        OverStays(w, es[0], c);
        RefusalStays(w1, es[1..], c);
      }
    }
  }

  // An upload that is neither going round the loop nor answered stays so.
  predicate Over(w: World, c: CallId) {
    && c in w.fs.uploads
    && var p := w.fs.uploads[c].phase;
    && (p.Crashed? || ((p.Discarding? || p.Ended?) && !p.outcome.Duplicate?))
  }

  lemma OverStays(w: World, e: Event, c: CallId)
    ensures Over(w, c) ==> Over(Next(w, e), c)
    ensures AnsweredDuplicate(w, c) ==> AnsweredDuplicate(Next(w, e), c) || Over(Next(w, e), c)
  {
    UploadShape(w, e, c);
  }

  lemma {:induction false} RefusalStays(w: World, es: seq<Event>, c: CallId)
    requires Inv(w) && Over(w, c)
    ensures Over(Run(w, es), c)
    decreases |es|
  {
    if es != [] {
      Kept(w, es[0]);
      OverStays(w, es[0], c);
      RefusalStays(Next(w, es[0]), es[1..], c);
    }
  }

  // ---------- Deletion ----------

  // The recheck in the second delete transaction never fires.
  lemma RecheckNeverFires(w: World, e: Event)
    requires Inv(w) && e.Remove? && Enabled(w, e)
    requires w.fs.deletions[e.call].recording in w.db.recordings
    ensures Removes(w, e)
    ensures w.db.recordings[w.fs.deletions[e.call].recording].key !in w.fs.files
  {
    assert DeletionOk(w, e.call);
  }

  // A marked recording and its tasks either stay exactly as they are or are gone together.
  ghost predicate FrozenOrGone(w: World, w': World, r: RecordingId)
    requires r in w.db.recordings
  {
    if r in w'.db.recordings then
      && w'.db.recordings[r] == w.db.recordings[r]
      && (forall t :: t in w.db.tasks && w.db.tasks[t].recording == r ==>
            t in w'.db.tasks && w'.db.tasks[t] == w.db.tasks[t])
      && (forall t :: t in w'.db.tasks && w'.db.tasks[t].recording == r ==>
            t in w.db.tasks && w.db.tasks[t].recording == r)
    else
      && w.db.recordings[r].key !in w'.fs.files
      && (forall t :: t in w'.db.tasks ==> w'.db.tasks[t].recording != r)
  }

  lemma MarkedRowIsFrozen(w: World, e: Event, r: RecordingId)
    requires Inv(w) && r in w.db.recordings && w.db.recordings[r].deletedAt.Some?
    ensures r in Next(w, e).db.recordings ==> Next(w, e).db.recordings[r] == w.db.recordings[r]
    ensures r !in Next(w, e).db.recordings ==> w.db.recordings[r].key !in Next(w, e).fs.files
  {
    RecordingShape(w, e, r);
    assert RecordingOk(w, r);
    DiskShape(w, e, w.db.recordings[r].key);
    if r !in Next(w, e).db.recordings {
      assert DeletionOk(w, e.call);
    }
  }

  lemma NoBirthUnderMark(w: World, e: Event, t: TaskId, r: RecordingId)
    requires Inv(w) && r in w.db.recordings && w.db.recordings[r].deletedAt.Some?
    requires t in Next(w, e).db.tasks && Next(w, e).db.tasks[t].recording == r
    ensures t in w.db.tasks && w.db.tasks[t].recording == r
  {
    hide Next;
    Kept(w, e);
    assert RowStep(w, e, Next(w, e), t);
    if t !in w.db.tasks {
      BornOf(w, e, t);
    }
  }

  // A task row is born in a retry of a visible recording, or together with its recording.
  lemma BornOf(w: World, e: Event, t: TaskId)
    requires t !in w.db.tasks && t in Next(w, e).db.tasks
    ensures var r := Next(w, e).db.tasks[t].recording;
            || (e.Retry? && TargetRecording(w, e) == Some(r) && Visible(w, r))
            || (Inserts(w, e) && e.recording == r && r !in w.past.usedRecordings)
  {
    if IsQueueEvent(e) {
      QueueShape(w, e);
    } else if e.Retry? {
      RetryShape(w, e);
    } else if e.Mark? {
      MarkShape(w, e);
    } else if e.Remove? {
      RemoveShape(w, e);
    } else if e.Resolve? {
      ResolveShape(w, e);
    } else if Inserts(w, e) {
      InsertShape(w, e);
    } else {
      OtherShape(w, e);
    }
  }

  lemma FrozenStep(w: World, e: Event, r: RecordingId)
    requires Inv(w) && r in w.db.recordings && w.db.recordings[r].deletedAt.Some?
    ensures FrozenOrGone(w, Next(w, e), r)
  {
    var w' := Next(w, e);
    Kept(w, e);
    MarkedRowIsFrozen(w, e, r);
    forall t | t in w.db.tasks && w.db.tasks[t].recording == r && r in w'.db.recordings
      ensures t in w'.db.tasks && w'.db.tasks[t] == w.db.tasks[t]
    {
      assert RowStep(w, e, w', t);
    }
    forall t | t in w'.db.tasks && w'.db.tasks[t].recording == r
      ensures t in w.db.tasks && r in w'.db.recordings
    {
      NoBirthUnderMark(w, e, t, r);
      assert RowInv(w', t);
    }
  }

  lemma {:induction false} GoneStaysGone(w: World, es: seq<Event>, r: RecordingId, k: Key)
    requires Inv(w) && r in w.past.usedRecordings && r !in w.db.recordings
    requires k in w.fs.savers && k !in w.fs.files
    ensures var end := Run(w, es);
            && r !in end.db.recordings && k !in end.fs.files
            && forall t :: t in end.db.tasks ==> end.db.tasks[t].recording != r
    decreases |es|
  {
    if es == [] {
      forall t | t in w.db.tasks ensures w.db.tasks[t].recording != r {
        assert RowInv(w, t);
      }
    } else {
      Kept(w, es[0]);
      DiskShape(w, es[0], k);
      GoneStaysGone(Next(w, es[0]), es[1..], r, k);
    }
  }

  lemma FreezesCompose(w: World, mid: World, end: World, r: RecordingId)
    requires r in w.db.recordings && r in mid.db.recordings
    requires FrozenOrGone(w, mid, r) && FrozenOrGone(mid, end, r)
    ensures FrozenOrGone(w, end, r)
  {
  }

  // After the first delete transaction nothing of the recording changes until its row and tasks
  // vanish together, which happens only once its file is gone; none of it ever comes back.
  lemma {:induction false} DeletionFreezes(w: World, es: seq<Event>, r: RecordingId)
    requires Inv(w) && r in w.db.recordings && w.db.recordings[r].deletedAt.Some?
    ensures FrozenOrGone(w, Run(w, es), r)
    decreases |es|
  {
    if es != [] {
      var w1 := Next(w, es[0]);
      Kept(w, es[0]);
      FrozenStep(w, es[0], r);
      if r in w1.db.recordings {
        DeletionFreezes(w1, es[1..], r);
        FreezesCompose(w, w1, Run(w1, es[1..]), r);
      } else {
        GoneAfterMark(w, es[0], es[1..], r);
      }
    }
  }

  lemma GoneAfterMark(w: World, e: Event, es: seq<Event>, r: RecordingId)
    requires Inv(w) && r in w.db.recordings && r !in Next(w, e).db.recordings
    requires w.db.recordings[r].key !in Next(w, e).fs.files
    ensures FrozenOrGone(w, Run(Next(w, e), es), r)
  {
    Kept(w, e);
    assert RecordingOk(w, r);
    DiskShape(w, e, w.db.recordings[r].key);
    GoneStaysGone(Next(w, e), es, r, w.db.recordings[r].key);
  }

  // ---------- Content hashes ----------

  lemma ContentIsFixed(w: World, e: Event, r: RecordingId)
    requires RowsInv(w) && r in w.past.usedRecordings && r in Next(w, e).db.recordings
    ensures r in w.db.recordings
    ensures Next(w, e).db.recordings[r].audio == w.db.recordings[r].audio
  {
    RecordingShape(w, e, r);
  }

  lemma {:induction false} ContentNeverChanges(w: World, es: seq<Event>, r: RecordingId)
    requires RowsInv(w) && r in w.past.usedRecordings && r in Run(w, es).db.recordings
    ensures r in w.db.recordings && Run(w, es).db.recordings[r].audio == w.db.recordings[r].audio
    decreases |es|
  {
    if es != [] {
      var w1 := Next(w, es[0]);
      RowsKept(w, es[0]);
      ContentNeverChanges(w1, es[1..], r);
      ContentIsFixed(w, es[0], r);
    }
  }

  // Lifetimes of recordings with equal content never overlap: once a second one exists, the first
  // is gone for good, and the second did not exist before.
  lemma LifetimesAreDisjoint(w: World, es: seq<Event>, more: seq<Event>, r: RecordingId, s: RecordingId)
    requires Inv(w) && r in w.db.recordings && s in Run(w, es).db.recordings && r != s
    requires w.db.recordings[r].audio.digest == Run(w, es).db.recordings[s].audio.digest
    ensures s !in w.db.recordings
    ensures r !in Run(Run(w, es), more).db.recordings
  {
    var end := Run(w, es);
    Always(w, es);
    if s in w.db.recordings {
      ContentNeverChanges(w, es, s);
    }
    PastGrows(w, es);
    if r in Run(end, more).db.recordings {
      ContentNeverChanges(end, more, r);
      ContentNeverChanges(w, es, r);
    }
  }
}
