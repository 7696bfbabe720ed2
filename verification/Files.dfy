/** The joint invariant of the recordings table and the audio directory. */
module Files {
  import opened Domain
  import opened System
  import opened Shapes

  // The upload may still insert rows, or may have to delete its own file: it never landed.
  predicate Undecided(u: Upload) {
    u.phase.Saved? || u.phase.Conflicted? || u.phase.Discarding?
  }

  // A file that no live or ended upload has removed.
  predicate Keeps(u: Upload) {
    !u.phase.Ended? || u.phase.leftover || u.phase.outcome.Uncertain? || u.phase.outcome.Created?
  }

  // COMMIT was sent, and the file was kept since.
  predicate Sent(u: Upload) {
    || u.phase.Confirming? || u.phase.Crashed?
    || (u.phase.Ended? && !u.phase.leftover && (u.phase.outcome.Uncertain? || u.phase.outcome.Created?))
  }

  predicate UploadOk(w: World, c: CallId)
    requires c in w.fs.uploads
  {
    var u := w.fs.uploads[c];
    && u.key in w.fs.savers && w.fs.savers[u.key] == c
    && 0 < u.audio.size <= MAX_AUDIO_BYTES && u.round < UPLOAD_ROUNDS
    && (Undecided(u) ==> u.landed.None?)
    && (u.phase.Discarding? ==> !u.phase.outcome.Created? && !u.phase.outcome.Uncertain?)
    && (u.phase.Ended? && u.phase.outcome.Created? ==> u.landed == Some(u.phase.outcome.recording))
    && (u.phase.Ended? && u.landed.Some? ==> u.phase.outcome.Created? || u.phase.outcome.Uncertain?)
    && (u.phase.Confirming? && u.landed.Some? ==> u.landed == Some(u.phase.recording))
    && (u.pending.Some? ==> Sent(u))
    && (u.phase.Confirming? && u.pending.Some? ==> u.pending == Some((u.phase.recording, u.phase.task)))
    && (u.phase.Ended? && u.phase.leftover ==> u.landed.None? && !u.phase.outcome.Created? && !u.phase.outcome.Uncertain?)
    && (match u.landed
        case None =>
          && u.key !in w.fs.owners
          && (Keeps(u) <==> u.key in w.fs.files)
          && (Keeps(u) ==> w.fs.files[u.key] == u.audio)
        case Some(r) =>
          && u.key in w.fs.owners && w.fs.owners[u.key] == r && r in w.past.usedRecordings
          && r in w.past.firsts
          && (r in w.db.recordings ==>
                w.db.recordings[r].filename == u.filename && w.db.recordings[r].audio == u.audio)
          && (u.phase.Confirming? ==> u.phase.task == w.past.firsts[r])
          && (u.phase.Ended? && u.phase.outcome.Created? ==> u.phase.outcome.task == w.past.firsts[r]))
  }

  predicate RecordingOk(w: World, r: RecordingId)
    requires r in w.db.recordings
  {
    var row := w.db.recordings[r];
    && row.key in w.fs.owners && w.fs.owners[row.key] == r
    && (row.deletedAt.None? ==> row.key in w.fs.files && w.fs.files[row.key] == row.audio)
  }

  predicate DeletionOk(w: World, c: CallId)
    requires c in w.fs.deletions
  {
    var d := w.fs.deletions[c];
    && d.key in w.fs.owners && w.fs.owners[d.key] == d.recording
    && d.recording in w.past.usedRecordings
    && (d.unlinked ==> d.key !in w.fs.files)
    && (d.recording in w.db.recordings ==>
          w.db.recordings[d.recording].deletedAt.Some? && w.db.recordings[d.recording].key == d.key)
  }

  predicate KeyOk(w: World, k: Key)
    requires k in w.fs.savers
  {
    && w.fs.savers[k] in w.fs.uploads && w.fs.uploads[w.fs.savers[k]].key == k
    && (k in w.fs.owners ==> w.fs.uploads[w.fs.savers[k]].landed == Some(w.fs.owners[k]))
    && (k in w.fs.owners ==> w.fs.owners[k] in w.past.usedRecordings)
    && (k in w.fs.owners && k in w.fs.files ==> w.fs.owners[k] in w.db.recordings)
  }

  predicate UniqueDigests(recordings: map<RecordingId, Recording>) {
    forall r, s ::
      (r in recordings && s in recordings && recordings[r].audio.digest == recordings[s].audio.digest) ==> r == s
  }

  // A recording never had more than one key.
  predicate UniqueOwners(owners: map<Key, RecordingId>) {
    forall k, l :: k in owners && l in owners && owners[k] == owners[l] ==> k == l
  }

  predicate FilesInv(w: World) {
    && (forall c :: c in w.fs.uploads ==> UploadOk(w, c))
    && (forall r :: r in w.db.recordings ==> RecordingOk(w, r))
    && (forall c :: c in w.fs.deletions ==> DeletionOk(w, c))
    && (forall k :: k in w.fs.savers ==> KeyOk(w, k))
    && w.fs.owners.Keys <= w.fs.savers.Keys && w.fs.files.Keys <= w.fs.savers.Keys
    && UniqueDigests(w.db.recordings) && UniqueOwners(w.fs.owners)
    && w.db.recordings.Keys <= w.past.usedRecordings
  }

  // ---------- Every step keeps it ----------

  lemma SaveKeepsFiles(w: World, e: Event)
    requires FilesInv(w) && e.SaveFile? && MaySave(w, e)
    ensures FilesInv(Save(w, e))
  {
    var w' := Save(w, e);
    forall c | c in w'.fs.uploads ensures UploadOk(w', c) {
      if c != e.call { assert UploadOk(w, c); }
    }
    forall r | r in w'.db.recordings ensures RecordingOk(w', r) { assert RecordingOk(w, r); }
    forall c | c in w'.fs.deletions ensures DeletionOk(w', c) { assert DeletionOk(w, c); }
    forall k | k in w'.fs.savers ensures KeyOk(w', k) {
      if k != e.key { assert KeyOk(w, k); }
    }
  }

  lemma InsertedKeepsFiles(w: World, e: Event)
    requires FilesInv(w) && Inserts(w, e)
    ensures FilesInv(Inserted(w, e))
  {
    var w' := Inserted(w, e);
    var u := w.fs.uploads[e.call];
    assert UploadOk(w, e.call);
    forall c | c in w'.fs.uploads ensures UploadOk(w', c) {
      assert UploadOk(w, c);
    }
    forall r | r in w'.db.recordings ensures RecordingOk(w', r) {
      if r != e.recording { assert RecordingOk(w, r); }
    }
    forall c | c in w'.fs.deletions ensures DeletionOk(w', c) { assert DeletionOk(w, c); }
    forall k | k in w'.fs.savers ensures KeyOk(w', k) { assert KeyOk(w, k); }
    assert UniqueOwners(w'.fs.owners) by {
      forall k | k in w.fs.owners ensures w.fs.owners[k] != e.recording { assert KeyOk(w, k); }
    }
  }

  // An upload's progress that neither inserts rows nor touches its file.
  predicate Advances(u: Upload, u': Upload) {
    && u' == u.(round := u'.round, phase := u'.phase, pending := u'.pending)
    && (u'.pending == u.pending || u'.phase.Confirming?)
    && (u'.pending.Some? ==> Sent(u'))
    && (u'.phase.Confirming? && u'.pending.Some? ==> u'.pending == Some((u'.phase.recording, u'.phase.task)))
    && u'.round < UPLOAD_ROUNDS && Keeps(u) && Keeps(u')
    && (Undecided(u') ==> u.landed.None?)
    && (u'.phase.Discarding? ==> !u'.phase.outcome.Created? && !u'.phase.outcome.Uncertain?)
    && (u'.phase.Ended? ==>
          if u'.phase.leftover then u.landed.None? && !u'.phase.outcome.Created? && !u'.phase.outcome.Uncertain?
          else u'.phase.outcome == Uncertain
               || (u'.phase.outcome.Created? && u.phase.Confirming?
                   && u'.phase.outcome == Created(u.phase.recording, u.phase.task)
                   && u.landed == Some(u.phase.recording)))
    && (u'.phase.Confirming? ==> u.landed.None?)
  }

  lemma AdvanceKeepsFiles(w: World, c: CallId, u': Upload)
    requires FilesInv(w) && c in w.fs.uploads && Advances(w.fs.uploads[c], u')
    ensures FilesInv(WithUpload(w, c, u'))
  {
    var w' := WithUpload(w, c, u');
    forall d | d in w'.fs.uploads ensures UploadOk(w', d) { assert UploadOk(w, d); }
    forall r | r in w'.db.recordings ensures RecordingOk(w', r) { assert RecordingOk(w, r); }
    forall d | d in w'.fs.deletions ensures DeletionOk(w', d) { assert DeletionOk(w, d); }
    forall k | k in w'.fs.savers ensures KeyOk(w', k) { assert KeyOk(w, k); }
  }

  // The upload gives up its own file, which no row refers to.
  lemma DiscardKeepsFiles(w: World, c: CallId, u': Upload)
    requires FilesInv(w) && c in w.fs.uploads && w.fs.uploads[c].phase.Discarding?
    requires u' == w.fs.uploads[c].(phase := Ended(w.fs.uploads[c].phase.outcome, false))
    ensures FilesInv(WithUpload(w, c, u').(
      fs := WithUpload(w, c, u').fs.(files := w.fs.files - {u'.key})))
  {
    var w' := WithUpload(w, c, u').(fs := WithUpload(w, c, u').fs.(files := w.fs.files - {u'.key}));
    assert UploadOk(w, c);
    forall d | d in w'.fs.uploads ensures UploadOk(w', d) { assert UploadOk(w, d); }
    forall r | r in w'.db.recordings ensures RecordingOk(w', r) { assert RecordingOk(w, r); }
    forall d | d in w'.fs.deletions ensures DeletionOk(w', d) { assert DeletionOk(w, d); }
    forall k | k in w'.fs.savers ensures KeyOk(w', k) { assert KeyOk(w, k); }
  }

  // A deletion unlinks a key whose recording is marked or gone.
  lemma UnlinkKeepsFiles(w: World, e: Event)
    requires FilesInv(w) && Unlinks(w, e)
    ensures FilesInv(DeletionStep(w, e))
  {
    var w' := DeletionStep(w, e);
    assert DeletionOk(w, e.call);
    forall c | c in w'.fs.uploads ensures UploadOk(w', c) { assert UploadOk(w, c); }
    forall r | r in w'.db.recordings ensures RecordingOk(w', r) { assert RecordingOk(w, r); }
    forall c | c in w'.fs.deletions ensures DeletionOk(w', c) { assert DeletionOk(w, c); }
    forall k | k in w'.fs.savers ensures KeyOk(w', k) { assert KeyOk(w, k); }
  }

  lemma MarkedKeepsFiles(w: World, e: Event)
    requires FilesInv(w) && e.Mark? && e.recording in w.db.recordings
    ensures FilesInv(Marked(w, e))
  {
    var w' := Marked(w, e);
    assert RecordingOk(w, e.recording);
    forall c | c in w'.fs.uploads ensures UploadOk(w', c) { assert UploadOk(w, c); }
    forall r | r in w'.db.recordings ensures RecordingOk(w', r) { assert RecordingOk(w, r); }
    forall c | c in w'.fs.deletions ensures DeletionOk(w', c) {
      if c != e.call { assert DeletionOk(w, c); }
    }
    forall k | k in w'.fs.savers ensures KeyOk(w', k) { assert KeyOk(w, k); }
  }

  lemma RemovedKeepsFiles(w: World, e: Event)
    requires FilesInv(w) && Removes(w, e)
    ensures FilesInv(w.(
      db := Without(w.db, w.fs.deletions[e.call].recording),
      fs := w.fs.(deletions := w.fs.deletions - {e.call})))
  {
    var d := w.fs.deletions[e.call];
    var w' := w.(db := Without(w.db, d.recording), fs := w.fs.(deletions := w.fs.deletions - {e.call}));
    assert DeletionOk(w, e.call);
    forall c | c in w'.fs.uploads ensures UploadOk(w', c) { assert UploadOk(w, c); }
    forall r | r in w'.db.recordings ensures RecordingOk(w', r) { assert RecordingOk(w, r); }
    forall c | c in w'.fs.deletions ensures DeletionOk(w', c) { assert DeletionOk(w, c); }
    forall k | k in w'.fs.savers ensures KeyOk(w', k) { assert KeyOk(w, k); }
  }

  // Tasks, leases and clock readings do not matter to the files.
  lemma QuietKeepsFiles(w: World, w': World)
    requires FilesInv(w) && w'.db.recordings == w.db.recordings
    requires w'.fs == w.fs.(deletions := w'.fs.deletions)
    requires forall c :: c in w'.fs.deletions ==> c in w.fs.deletions && w'.fs.deletions[c] == w.fs.deletions[c]
    requires w.past.usedRecordings <= w'.past.usedRecordings && w'.past.firsts == w.past.firsts
    ensures FilesInv(w')
  {
    forall c | c in w'.fs.uploads ensures UploadOk(w', c) { assert UploadOk(w, c); }
    forall r | r in w'.db.recordings ensures RecordingOk(w', r) { assert RecordingOk(w, r); }
    forall c | c in w'.fs.deletions ensures DeletionOk(w', c) { assert DeletionOk(w, c); }
    forall k | k in w'.fs.savers ensures KeyOk(w', k) { assert KeyOk(w, k); }
  }

  lemma TransactionKeepsFiles(w: World, e: Event)
    requires FilesInv(w) && IsTransaction(e)
    ensures FilesInv(Next(w, e))
  {
    if IsQueueEvent(e) {
      QueueShape(w, e);
      QuietKeepsFiles(w, Next(w, e));
    } else if e.Retry? {
      RetryShape(w, e);
      QuietKeepsFiles(w, Next(w, e));
    } else if e.Mark? {
      MarkShape(w, e);
      if e.recording in w.db.recordings {
        MarkedKeepsFiles(w, e);
      }
    } else if e.Remove? {
      RemoveShape(w, e);
      if Removes(w, e) {
        RemovedKeepsFiles(w, e);
      } else {
        QuietKeepsFiles(w, Next(w, e));
      }
    } else {
      ResolveShape(w, e);
      if Enabled(w, e) {
        assert UploadOk(w, e.call);
        AdvanceKeepsFiles(w, e.call, Resolved(w, e));
      }
    }
  }

  lemma InsertKeepsFiles(w: World, e: Event)
    requires FilesInv(w) && e.InsertRows?
    ensures FilesInv(Insert(w, e))
  {
    if MayInsert(w, e) {
      assert UploadOk(w, e.call);
      if Commits(w, e) {
        InsertedKeepsFiles(w, e);
      } else {
        AdvanceKeepsFiles(w, e.call, AfterInsert(w, e));
      }
    }
  }

  lemma UploadStepKeepsFiles(w: World, e: Event)
    requires FilesInv(w) && (e.FailLookup? || e.Confirm? || e.Discard? || e.CrashUpload?)
    ensures FilesInv(UploadStep(w, e))
  {
    if e.call in w.fs.uploads {
      var u := w.fs.uploads[e.call];
      assert UploadOk(w, e.call);
      if DropsOwnFile(w, e) {
        DiscardKeepsFiles(w, e.call, UploadProgress(w, u, e));
      } else if UploadProgress(w, u, e) != u {
        ConfirmedLanded(w, e);
        AdvanceKeepsFiles(w, e.call, UploadProgress(w, u, e));
      } else {
        assert UploadStep(w, e).fs.uploads == w.fs.uploads;
        QuietKeepsFiles(w, UploadStep(w, e));
      }
    }
  }

  // Rows found under the upload's own ids and key are the rows it committed.
  lemma ConfirmedLanded(w: World, e: Event)
    requires FilesInv(w) && (e.FailLookup? || e.Confirm? || e.Discard? || e.CrashUpload?)
    requires e.call in w.fs.uploads
    ensures var u := w.fs.uploads[e.call];
            e.Confirm? && u.phase.Confirming? && FoundCommitted(w, u, u.phase.recording, u.phase.task) ==>
            u.landed == Some(u.phase.recording)
  {
    var u := w.fs.uploads[e.call];
    assert UploadOk(w, e.call);
    if e.Confirm? && u.phase.Confirming? && FoundCommitted(w, u, u.phase.recording, u.phase.task) {
      assert RecordingOk(w, u.phase.recording);
    }
  }

  lemma FilesKept(w: World, e: Event)
    requires FilesInv(w)
    ensures FilesInv(Next(w, e))
  {
    if IsTransaction(e) {
      TransactionKeepsFiles(w, e);
    } else if e.SaveFile? {
      if MaySave(w, e) {
        SaveKeepsFiles(w, e);
      }
    } else if e.InsertRows? {
      InsertKeepsFiles(w, e);
    } else if e.LandLate? {
      if MayLand(w, e) {
        InsertedKeepsFiles(w, e);
      }
    } else if e.Unlink? || e.CrashDeletion? {
      if Unlinks(w, e) {
        UnlinkKeepsFiles(w, e);
      } else {
        QuietKeepsFiles(w, DeletionStep(w, e));
      }
    } else if e.Tick? {
      QuietKeepsFiles(w, Next(w, e));
    } else {
      UploadStepKeepsFiles(w, e);
    }
  }

  lemma {:induction false} FilesAlways(w: World, es: seq<Event>)
    requires FilesInv(w)
    ensures FilesInv(Run(w, es))
    decreases |es|
  {
    if es != [] {
      FilesKept(w, es[0]);
      FilesAlways(Next(w, es[0]), es[1..]);
    }
  }
}
