/** Uploading: file first, then both rows in one transaction, with the unique hash as arbiter. */
module Uploads {
  import opened Domain
  import opened TaskRow
  import opened System
  import opened Shapes
  import opened Safety
  import S = Store

  datatype StoredUpload = StoredUpload(key: Key, audio: Audio)

  // How the transaction that inserts both rows ends for its caller.
  datatype InsertOutcome = RowsInserted | HashConflict | RolledBackFirst | CommitFailed

  datatype Lookup = Vanished | Deleting | NoFirstTask | Found(recording: RecordingId, task: TaskId, status: Status)
                  | LookupError

  // What the caller of an upload gets: a recording, newly created or found, or an exception.
  datatype Answer =
    | Accepted(recording: RecordingId, task: TaskId, status: Status, created: bool)
    | Raised(outcome: Outcome)

  // How an answer shows in the bookkeeping of the call.
  predicate Matches(answer: Answer, u: Upload) {
    u.phase.Ended? &&
    match answer
    case Accepted(r, t, status, created) =>
      if created then u.phase.outcome == Created(r, t) && status.Pending?
      else u.phase.outcome == Duplicate(r, t, status) && !u.phase.leftover
    case Raised(outcome) =>
      && u.phase.outcome == outcome && !outcome.Created? && !outcome.Duplicate?
      && (u.phase.leftover ==> outcome.Interrupted? || outcome.Unavailable?)
  }

  // The ids an upload has generated for the rounds it has not tried yet.
  function Ids(c: CallId, ids: seq<(RecordingId, TaskId)>, from: nat): (mine: S.Mine)
    requires from <= |ids|
    ensures mine.call == Some(c) && mine.tokens == {}
  {
    S.Mine(Some(c), {}, set i | from <= i < |ids| :: ids[i].0, set i | from <= i < |ids| :: ids[i].1, {})
  }

  predicate Distinct(ids: seq<(RecordingId, TaskId)>) {
    forall i, j :: 0 <= i < j < |ids| ==> ids[i].0 != ids[j].0 && ids[i].1 != ids[j].1
  }

  lemma InsertUsesOne(w: World, e: Event, mine: S.Mine)
    requires S.Unused(w, mine) && (e.InsertRows? || e.LandLate?)
    requires e.recording !in mine.recordings && e.task !in mine.tasks
    ensures S.Unused(Next(w, e), mine)
  {
  }

  lemma LandingUsesOne(w: World, es: seq<Event>, mine: S.Mine)
    requires S.Unused(w, mine) && |es| <= 1
    requires forall i :: 0 <= i < |es| ==>
               es[i].LandLate? && es[i].recording !in mine.recordings && es[i].task !in mine.tasks
    ensures S.Unused(Run(w, es), mine)
  {
    if es != [] {
      InsertUsesOne(w, es[0], mine);
      RunNothing(Next(w, es[0]));
      assert es[1..] == [];
    }
  }

  // What is mine while my COMMIT may still arrive.
  function Keeping(mine: S.Mine, recording: RecordingId, task: TaskId): S.Mine {
    mine.(recordings := mine.recordings + {recording}, tasks := mine.tasks + {task})
  }

  lemma CallEventUsesNothing(w: World, e: Event, mine: S.Mine)
    requires S.Unused(w, mine)
    requires e.Resolve? || e.FailLookup? || e.Confirm? || e.Discard? || e.SaveFile?
    ensures S.Unused(Next(w, e), mine)
  {
    if e.Resolve? {
      ResolveShape(w, e);
    } else {
      OtherShape(w, e);
    }
  }

  // What a lookup does to the upload.
  function AfterLookup(u: Upload, found: Lookup): Upload {
    match found
    case Vanished => NextRound(u)
    case Deleting => u.(phase := Discarding(RecordingDeleting))
    case NoFirstTask => u.(phase := Discarding(UploadConflict))
    case Found(r, t, status) => u.(phase := Discarding(Duplicate(r, t, status)))
    case LookupError => u.(phase := Discarding(LookupFailed))
  }

  class Uploads {
    const store: S.Store

    constructor (store: S.Store)
      ensures this.store == store
    {
      this.store := store;
    }

    method SaveFile(ghost call: CallId, stored: StoredUpload, filename: string)
      requires store.Valid() && call !in store.uploads && stored.key !in store.savers
      requires 0 < stored.audio.size <= MAX_AUDIO_BYTES
      modifies store
      ensures store.Valid()
      ensures store.View() == Next(old(store.View()), Event.SaveFile(call, stored.key, stored.audio, filename))
      ensures call in store.uploads
              && store.uploads[call] == Upload(filename, stored.key, stored.audio, 0, Saved, None, None)
    {
      hide Inv;
      Kept(store.View(), Event.SaveFile(call, stored.key, stored.audio, filename));
      store.files := store.files[stored.key := stored.audio];
      store.savers := store.savers[stored.key := call];
      store.uploads := store.uploads[call := Upload(filename, stored.key, stored.audio, 0, Saved, None, None)];
    }

    // One transaction: INSERT the recording, INSERT its first task, COMMIT. What really became of
    // it, `commit`, only the database knows.
    method InsertRows(ghost call: CallId, stored: StoredUpload, filename: string, recording: RecordingId, task: TaskId)
      returns (outcome: InsertOutcome, commit: Commit, ghost faults: bool)
      requires store.Valid() && call in store.uploads && store.uploads[call].phase.Saved?
      requires store.uploads[call].key == stored.key && store.uploads[call].audio == stored.audio
      requires store.uploads[call].filename == filename
      requires recording !in store.past.usedRecordings && task !in store.past.usedTasks
      modifies store
      ensures store.Valid() && store.clock == old(store.clock)
      ensures store.View() == Next(old(store.View()), Event.InsertRows(call, recording, task, commit, store.clock))
      ensures call in store.uploads && match outcome
              case RowsInserted => store.uploads[call].phase == Ended(Created(recording, task), false)
              case HashConflict => store.uploads[call] == old(store.uploads)[call].(phase := Conflicted)
              case RolledBackFirst =>
                store.uploads[call] == old(store.uploads)[call].(phase := Discarding(Interrupted))
              case CommitFailed => store.uploads[call].phase == Confirming(recording, task)
      ensures store.uploads[call] == old(store.uploads)[call].(
        phase := store.uploads[call].phase,
        landed := store.uploads[call].landed, pending := store.uploads[call].pending)
      ensures outcome.RolledBackFirst? || outcome.CommitFailed? ==> faults
      ensures !faults ==> (outcome.HashConflict? <==> DigestTaken(old(store.View()), stored.audio.digest))
      ensures outcome.CommitFailed? ==> commit.LostWithError? || commit.LandedButReportedError?
      ensures commit.LostWithError? ==>
                && recording !in store.past.usedRecordings && task !in store.past.usedTasks
                && store.uploads[call].landed.None? && store.uploads[call].pending == Some((recording, task))
      ensures outcome.RowsInserted? ==>
                && recording in store.recordings && store.recordings[recording].key == stored.key
                && task in store.tasks && store.tasks[task] == NewTask(recording, 1, None, store.clock)
    {
      ghost var w := store.View();
      hide Next, Inv, Insert;
      commit := RolledBack;
      var fails: bool := *;            // before COMMIT is sent
      if fails {
        InsertStays(w, Event.InsertRows(call, recording, task, commit, store.clock));
        store.uploads := store.uploads[call := store.uploads[call].(phase := Discarding(Interrupted))];
        return RolledBackFirst, commit, true;
      }
      if exists r :: r in store.recordings && store.recordings[r].audio.digest == stored.audio.digest {
        commit := Landed;
        InsertStays(w, Event.InsertRows(call, recording, task, commit, store.clock));
        store.uploads := store.uploads[call := store.uploads[call].(phase := Conflicted)];
        return HashConflict, commit, false;
      }
      var lands: bool := *;            // whether the COMMIT takes effect
      if !lands {
        commit := LostWithError;
        InsertStays(w, Event.InsertRows(call, recording, task, commit, store.clock));
        store.uploads := store.uploads[call := store.uploads[call].(
          phase := Confirming(recording, task), pending := Some((recording, task)))];
        return CommitFailed, commit, true;
      }
      var reports: bool := *;          // whether its success is reported
      commit := if reports then Landed else LandedButReportedError;
      Land(call, stored, filename, recording, task,
        if reports then Ended(Created(recording, task), false) else Confirming(recording, task));
      InsertLands(w, Event.InsertRows(call, recording, task, commit, store.clock));
      return (if reports then RowsInserted else CommitFailed), commit, !reports;
    }

    // Both rows appear together.
    method Land(ghost call: CallId, stored: StoredUpload, filename: string,
                recording: RecordingId, task: TaskId, ghost phase: Phase)
      requires call in store.uploads
      modifies store
      ensures store.clock == old(store.clock) && store.files == old(store.files)
      ensures store.deletions == old(store.deletions) && store.savers == old(store.savers)
      ensures store.recordings == old(store.recordings)[recording :=
                Recording(filename, stored.key, stored.audio, store.clock, None)]
      ensures store.tasks == old(store.tasks)[task := NewTask(recording, 1, None, store.clock)]
      ensures store.owners == old(store.owners)[stored.key := recording]
      ensures store.uploads == old(store.uploads)[call :=
                old(store.uploads)[call].(landed := Some(recording), phase := phase)]
      ensures store.past == old(store.past).(
                usedRecordings := old(store.past).usedRecordings + {recording},
                usedTasks := old(store.past).usedTasks + {task},
                latest := old(store.past).latest[recording := store.clock],
                homes := old(store.past).homes[task := recording],
                firsts := old(store.past).firsts[recording := task])
    {
      store.recordings := store.recordings[recording :=
        Recording(filename, stored.key, stored.audio, store.clock, None)];
      store.tasks := store.tasks[task := NewTask(recording, 1, None, store.clock)];
      store.owners := store.owners[stored.key := recording];
      store.past := store.past.(
        usedRecordings := store.past.usedRecordings + {recording},
        usedTasks := store.past.usedTasks + {task},
        latest := store.past.latest[recording := store.clock],
        homes := store.past.homes[task := recording],
        firsts := store.past.firsts[recording := task]);
      store.uploads := store.uploads[call :=
        store.uploads[call].(landed := Some(recording), phase := phase)];
    }

    // A COMMIT that was lost on the way may still arrive, unless its hash was taken meanwhile.
    method Settle(ghost call: CallId, stored: StoredUpload, filename: string,
                  recording: RecordingId, task: TaskId, commit: Commit) returns (ghost es: seq<Event>)
      requires store.Valid() && call in store.uploads && store.uploads[call].phase == Confirming(recording, task)
      requires store.uploads[call].key == stored.key && store.uploads[call].audio == stored.audio
      requires store.uploads[call].filename == filename
      requires commit.LostWithError? ==>
                 && recording !in store.past.usedRecordings && task !in store.past.usedTasks
                 && store.uploads[call].landed.None? && store.uploads[call].pending == Some((recording, task))
      modifies store
      ensures store.Valid() && store.View() == Run(old(store.View()), es)
      ensures es == [] || es == [LandLate(call, recording, task, store.clock)]
      ensures call in store.uploads && store.uploads[call] == old(store.uploads)[call].(
        landed := store.uploads[call].landed)
    {
      hide Next, Inv, Insert, Run;
      es := [];
      ghost var w := store.View();
      RunNothing(w);
      var arrives: bool := *;
      if commit.LostWithError? && arrives
         && !exists r :: r in store.recordings && store.recordings[r].audio.digest == stored.audio.digest {
        es := [LandLate(call, recording, task, store.clock)];
        Land(call, stored, filename, recording, task, Confirming(recording, task));
        InsertLands(w, es[0]);
        S.Extend(w, [], es[0]);
        assert [] + es == es;
      }
    }

    // A new transaction that looks for the recording that won.
    method FindDuplicate(ghost call: CallId, digest: Digest)
      returns (found: Lookup, ghost e: Event, ghost faults: bool)
      requires store.Valid() && call in store.uploads && store.uploads[call].phase.Conflicted?
      requires store.uploads[call].audio.digest == digest
      modifies store
      ensures store.Valid() && (e.Resolve? || e.FailLookup?) && CallOf(e) == Some(call)
      ensures store.View() == Next(old(store.View()), e)
      ensures !found.NoFirstTask? && (found.LookupError? <==> faults)
      ensures !faults ==> (found.Vanished? <==> !DigestTaken(old(store.View()), digest))
      ensures found.Found? ==>
                && Visible(old(store.View()), found.recording)
                && old(store.recordings)[found.recording].audio.digest == digest
                && IsFirst(old(store.tasks), found.recording, found.task)
                && old(store.tasks)[found.task].status == found.status
      ensures call in store.uploads && store.uploads[call] == AfterLookup(old(store.uploads)[call], found)
    {
      hide Next, Inv;
      var fails: bool := *;
      if fails {
        e := FailLookup(call);
        GiveUp(call);
        return LookupError, e, true;
      }
      if r :| r in store.recordings && store.recordings[r].audio.digest == digest {
        e := Resolve(call, Some(r));
        found := AnswerFrom(call, r);
        faults := false;
      } else {
        e := Resolve(call, None);
        GoRound(call);
        return Vanished, e, false;
      }
    }

    ghost method GiveUp(call: CallId)
      requires store.Valid() && call in store.uploads && store.uploads[call].phase.Conflicted?
      modifies store`uploads
      ensures store.Valid() && store.View() == Next(old(store.View()), FailLookup(call))
      ensures call in store.uploads
              && store.uploads[call] == old(store.uploads)[call].(phase := Discarding(LookupFailed))
    {
      hide Next, Inv;
      Kept(store.View(), FailLookup(call));
      NextFailLookup(store.View(), FailLookup(call));
      store.uploads := store.uploads[call := store.uploads[call].(phase := Discarding(LookupFailed))];
    }

    ghost method GoRound(call: CallId)
      requires store.Valid() && call in store.uploads && store.uploads[call].phase.Conflicted?
      requires !DigestTaken(store.View(), store.uploads[call].audio.digest)
      modifies store`uploads
      ensures store.Valid() && store.View() == Next(old(store.View()), Resolve(call, None))
      ensures call in store.uploads && store.uploads[call] == NextRound(old(store.uploads)[call])
    {
      hide Next, Inv;
      Kept(store.View(), Resolve(call, None));
      ResolveMisses(store.View(), Resolve(call, None));
      store.uploads := store.uploads[call := NextRound(store.uploads[call])];
    }

    // The row is there: it is being deleted, or its first task is the answer.
    method AnswerFrom(ghost call: CallId, r: RecordingId) returns (found: Lookup)
      requires store.Valid() && call in store.uploads && store.uploads[call].phase.Conflicted?
      requires r in store.recordings && store.recordings[r].audio.digest == store.uploads[call].audio.digest
      modifies store
      ensures store.Valid() && store.View() == Next(old(store.View()), Resolve(call, Some(r)))
      ensures if Visible(old(store.View()), r) then
                && found.Found? && found.recording == r && IsFirst(old(store.tasks), r, found.task)
                && found.status == old(store.tasks)[found.task].status
              else found.Deleting?
      ensures call in store.uploads && store.uploads[call] == AfterLookup(old(store.uploads)[call], found)
    {
      hide Next, Inv;
      ghost var w := store.View();
      Kept(w, Resolve(call, Some(r)));
      ResolveFinds(w, Resolve(call, Some(r)));
      FirstTaskExists(w, r);
      if store.recordings[r].deletedAt.Some? {
        store.uploads := store.uploads[call := store.uploads[call].(phase := Discarding(RecordingDeleting))];
        return Deleting;
      }
      if t :| t in store.tasks && store.tasks[t].recording == r && store.tasks[t].attempt == 1 {
        FirstIsOnly(w, r, t);
        store.uploads := store.uploads[call :=
          store.uploads[call].(phase := Discarding(Duplicate(r, t, store.tasks[t].status)))];
        return Found(r, t, store.tasks[t].status);
      } else {
        assert false;
      }
    }

    // Deletes only this upload's own file.
    method DiscardDuplicate(ghost call: CallId, key: Key) returns (removed: bool)
      requires store.Valid() && call in store.uploads && store.uploads[call].phase.Discarding?
      requires store.uploads[call].key == key
      modifies store
      ensures store.Valid() && store.View() == Next(old(store.View()), Discard(call, removed))
      ensures call in store.uploads && store.uploads[call] == old(store.uploads)[call].(phase :=
                var outcome := old(store.uploads)[call].phase.outcome;
                if removed then Ended(outcome, false)
                else Ended(if outcome.Interrupted? then Interrupted else Unavailable, true))
      ensures removed ==> key !in store.files
    {
      ghost var w := store.View();
      hide Next, Inv;
      removed := *;
      Kept(w, Discard(call, removed));
      NextDiscard(w, Discard(call, removed));
      ghost var outcome := store.uploads[call].phase.outcome;
      if removed {
        store.files := store.files - {key};
        store.uploads := store.uploads[call := store.uploads[call].(phase := Ended(outcome, false))];
      } else {
        store.uploads := store.uploads[call := store.uploads[call].(phase :=
          Ended(if outcome.Interrupted? then Interrupted else Unavailable, true))];
      }
    }

    // Looks, in a new session, for the rows of a COMMIT whose reply was lost.
    method FindCommitted(ghost call: CallId, stored: StoredUpload, recording: RecordingId, task: TaskId)
      returns (found: bool, ghost answered: bool)
      requires store.Valid() && call in store.uploads && store.uploads[call].phase == Confirming(recording, task)
      requires store.uploads[call].key == stored.key
      modifies store
      ensures store.Valid() && store.View() == Next(old(store.View()), Confirm(call, answered))
      ensures call in store.uploads && store.uploads[call] == old(store.uploads)[call].(phase :=
                Ended(if found then Created(recording, task) else Uncertain, false))
      ensures store.files == old(store.files)
      ensures found <==> answered && old(store.uploads)[call].landed == Some(recording)
                         && Visible(old(store.View()), recording)
    {
      ghost var w := store.View();
      hide Next, Inv;
      LookupIsExact(w, call);
      var works: bool := *;
      answered := works;
      Kept(w, Confirm(call, answered));
      NextConfirm(w, Confirm(call, answered));
      found := works
        && recording in store.recordings && store.recordings[recording].deletedAt.None?
        && store.recordings[recording].key == stored.key
        && task in store.tasks && store.tasks[task].recording == recording && store.tasks[task].attempt == 1;
      store.uploads := store.uploads[call := store.uploads[call].(phase :=
        Ended(if found then Created(recording, task) else Uncertain, false))];
    }

    // Everybody else acts; the trace of the whole call goes on.
    method Pause(ghost mine: S.Mine, ghost start: World, ghost trace: seq<Event>) returns (ghost longer: seq<Event>)
      requires store.Valid() && S.Unused(store.View(), mine) && store.View() == Run(start, trace)
      modifies store
      ensures store.Valid() && S.Unused(store.View(), mine) && store.View() == Run(start, longer)
      ensures S.SameCall(old(store.View()), store.View(), mine.call)
    {
      hide Run, Inv, Next;
      ghost var es := store.Interfere(mine);
      RunAppend(start, trace, es);
      longer := trace + es;
    }

    // One attempt to commit; an uncertain COMMIT is looked up, a certain rollback cleans up.
    method CommitUpload(ghost call: CallId, stored: StoredUpload, filename: string,
                        recording: RecordingId, task: TaskId,
                        ghost mine: S.Mine, ghost start: World, ghost trace: seq<Event>)
      returns (result: Option<Answer>, ghost longer: seq<Event>, ghost faults: bool)
      requires store.Valid() && S.Unused(store.View(), mine) && store.View() == Run(start, trace)
      requires mine.call == Some(call) && mine.tokens == {}
      requires recording !in store.past.usedRecordings && task !in store.past.usedTasks
      requires recording !in mine.recordings && task !in mine.tasks
      requires call in store.uploads && store.uploads[call].phase.Saved?
      requires store.uploads[call].key == stored.key && store.uploads[call].audio == stored.audio
      requires store.uploads[call].filename == filename
      modifies store
      ensures store.Valid() && S.Unused(store.View(), mine) && store.View() == Run(start, longer)
      ensures call in store.uploads
      ensures store.uploads[call] == old(store.uploads)[call].(
        phase := store.uploads[call].phase,
        landed := store.uploads[call].landed, pending := store.uploads[call].pending)
      ensures result.None? ==> store.uploads[call] == old(store.uploads)[call].(phase := Conflicted)
      ensures result.Some? ==> Matches(result.value, store.uploads[call])
      ensures result.Some? && result.value.Accepted? ==>
                result.value == Accepted(recording, task, Pending, true)
      ensures result.Some? && result.value.Raised? ==> faults
    {
      hide Run, Inv, Next;
      longer := trace;
      ghost var w := store.View();
      ghost var e := Event.InsertRows(call, recording, task, Landed, store.clock);
      var outcome, commit;
      outcome, commit, faults := InsertRows(call, stored, filename, recording, task);
      e := Event.InsertRows(call, recording, task, commit, e.at);
      InsertUsesOne(w, e, mine);
      S.Extend(start, longer, e);
      longer := longer + [e];
      match outcome
      case RowsInserted =>
        return Some(Accepted(recording, task, Pending, true)), longer, faults;
      case HashConflict =>
        return None, longer, faults;
      case RolledBackFirst =>
        longer := Pause(mine, start, longer);
        w := store.View();
        var removed := DiscardDuplicate(call, stored.key);
        CallEventUsesNothing(w, Discard(call, removed), mine);
        S.Extend(start, longer, Discard(call, removed));
        longer := longer + [Discard(call, removed)];
        return Some(Raised(Interrupted)), longer, faults;
      case CommitFailed =>
        ghost var kept := if commit.LostWithError? then Keeping(mine, recording, task) else mine;
        longer := Pause(kept, start, longer);
        w := store.View();
        ghost var es := Settle(call, stored, filename, recording, task, commit);
        RunAppend(start, longer, es);
        longer := longer + es;
        LandingUsesOne(w, es, mine);
        w := store.View();
        var found, answered := FindCommitted(call, stored, recording, task);
        CallEventUsesNothing(w, Confirm(call, answered), mine);
        S.Extend(start, longer, Confirm(call, answered));
        longer := longer + [Confirm(call, answered)];
        return Some(if found then Accepted(recording, task, Pending, true) else Raised(Uncertain)), longer, faults;
    }

    // The whole upload after its file was read: save, then at most three rounds against the
    // unique hash, with everybody else acting between any two steps.
    method Operation(ghost call: CallId, stored: StoredUpload, filename: string,
                           ids: seq<(RecordingId, TaskId)>)
      returns (answer: Answer, ghost trace: seq<Event>, ghost faults: bool)
      requires store.Valid() && call !in store.uploads && stored.key !in store.savers
      requires 0 < stored.audio.size <= MAX_AUDIO_BYTES
      requires |ids| == UPLOAD_ROUNDS && Distinct(ids) && S.Unused(store.View(), Ids(call, ids, 0))
      modifies store
      ensures store.Valid() && store.View() == Run(old(store.View()), trace)
      ensures call in store.uploads && Matches(answer, store.uploads[call])
      ensures store.uploads[call].key == stored.key && store.uploads[call].audio == stored.audio
      ensures store.uploads[call].filename == filename
      ensures !faults ==> answer.Accepted? || answer.outcome.UploadConflict? || answer.outcome.RecordingDeleting?
    {
      hide Run, Inv, Next, S.Unused, Ids, Distinct;
      faults := false;
      ghost var start := store.View();
      ghost var first := Event.SaveFile(call, stored.key, stored.audio, filename);
      SaveFile(call, stored, filename);
      CallEventUsesNothing(start, first, Ids(call, ids, 0));
      RunNothing(start);
      S.Extend(start, [], first);
      trace := [] + [first];
      var round := 0;
      while round < UPLOAD_ROUNDS
        invariant 0 <= round <= UPLOAD_ROUNDS
        invariant store.Valid() && S.Unused(store.View(), Ids(call, ids, round))
        invariant store.View() == Run(start, trace)
        invariant call in store.uploads && store.uploads[call].filename == filename
        invariant store.uploads[call].key == stored.key && store.uploads[call].audio == stored.audio
        invariant if round < UPLOAD_ROUNDS
                  then store.uploads[call].phase.Saved? && store.uploads[call].round == round
                  else store.uploads[call].phase == Discarding(UploadConflict)
      {
        trace := Pause(Ids(call, ids, round), start, trace);
        FreshNow(store.View(), call, ids, round);
        var result: Option<Answer>;
        ghost var failed: bool;
        result, trace, failed := CommitUpload(call, stored, filename, ids[round].0, ids[round].1,
          Ids(call, ids, round + 1), start, trace);
        faults := faults || failed;
        if result.Some? {
          return result.value, trace, faults;
        }
        result, trace, failed := Arbitrate(call, stored, Ids(call, ids, round + 1), start, trace);
        faults := faults || failed;
        if result.Some? {
          return result.value, trace, faults;
        }
        round := round + 1;
      }
      var removed;
      removed, trace := Drop(call, stored, Ids(call, ids, UPLOAD_ROUNDS), start, trace);
      return Raised(if removed then UploadConflict else Unavailable), trace, faults || !removed;
    }

    // Waits for the whole operation even when the client is gone; then the answer is dropped.
    method CreateRecording(ghost call: CallId, stored: StoredUpload, filename: string,
                           ids: seq<(RecordingId, TaskId)>)
      returns (answer: Option<Answer>, ghost trace: seq<Event>, ghost faults: bool)
      requires store.Valid() && call !in store.uploads && stored.key !in store.savers
      requires 0 < stored.audio.size <= MAX_AUDIO_BYTES
      requires |ids| == UPLOAD_ROUNDS && Distinct(ids) && S.Unused(store.View(), Ids(call, ids, 0))
      modifies store
      ensures store.Valid() && store.View() == Run(old(store.View()), trace)
      ensures call in store.uploads && AnswerTrue(store.View(), store.uploads[call])
      ensures store.uploads[call].filename == filename
              && store.uploads[call].key == stored.key && store.uploads[call].audio == stored.audio
      ensures answer.Some? ==> Matches(answer.value, store.uploads[call])
      ensures answer.Some? && !faults ==>
                || answer.value.Accepted?
                || answer.value.outcome.UploadConflict? || answer.value.outcome.RecordingDeleting?
      ensures answer.Some? && answer.value.Accepted? && !answer.value.created ==>
                && stored.key !in store.files
                && AnsweredIn(old(store.View()), trace, call).Some?
                && RealDuplicate(AnsweredIn(old(store.View()), trace, call).value, store.uploads[call])
      ensures answer.Some? && answer.value.Raised?
              && answer.value.outcome in {UploadConflict, RecordingDeleting, LookupFailed} ==>
                stored.key !in store.files
    {
      hide Run, Inv, Next, S.Unused, Ids, Distinct, AnsweredIn, RealDuplicate;
      ghost var start := store.View();
      var result;
      result, trace, faults := Operation(call, stored, filename, ids);
      AnswerIsTrueNow(store.View(), call);
      if result.Accepted? && !result.created {
        DuplicateWasReal(start, trace, call);
      }
      var cancelled: bool := *;
      return (if cancelled then None else Some(result)), trace, faults;
    }

    // After a hash conflict: the winner's answer, or another round if the winner has vanished.
    method Arbitrate(ghost call: CallId, stored: StoredUpload, ghost mine: S.Mine, ghost start: World,
                     ghost trace: seq<Event>)
      returns (result: Option<Answer>, ghost longer: seq<Event>, ghost faults: bool)
      requires store.Valid() && S.Unused(store.View(), mine) && store.View() == Run(start, trace)
      requires mine.call == Some(call)
      requires call in store.uploads && store.uploads[call].phase.Conflicted?
      requires store.uploads[call].key == stored.key && store.uploads[call].audio == stored.audio
      modifies store
      ensures store.Valid() && store.View() == Run(start, longer) && call in store.uploads
      ensures result.None? ==>
                S.Unused(store.View(), mine) && store.uploads[call] == NextRound(old(store.uploads)[call])
      ensures result.Some? && !faults ==> result.value.Accepted? || result.value.outcome.RecordingDeleting?
      ensures result.Some? ==>
                && Matches(result.value, store.uploads[call])
                && store.uploads[call] == old(store.uploads)[call].(phase := store.uploads[call].phase)
    {
      hide Run, Inv, Next, S.Unused;
      longer := Pause(mine, start, trace);
      ghost var w := store.View();
      ghost var e;
      var found;
      found, e, faults := FindDuplicate(call, stored.audio.digest);
      CallEventUsesNothing(w, e, mine);
      S.Extend(start, longer, e);
      longer := longer + [e];
      if found.Vanished? {
        return None, longer, faults;
      }
      var removed;
      removed, longer := Drop(call, stored, mine, start, longer);
      if !removed {
        return Some(Raised(Unavailable)), longer, true;
      }
      match found
      case Found(r, t, status) => return Some(Accepted(r, t, status, false)), longer, faults;
      case Deleting => return Some(Raised(RecordingDeleting)), longer, faults;
      case _ => return Some(Raised(LookupFailed)), longer, faults;
    }

    method Drop(ghost call: CallId, stored: StoredUpload, ghost mine: S.Mine, ghost start: World, ghost trace: seq<Event>)
      returns (removed: bool, ghost longer: seq<Event>)
      requires store.Valid() && S.Unused(store.View(), mine) && store.View() == Run(start, trace)
      requires mine.call == Some(call)
      requires call in store.uploads && store.uploads[call].phase.Discarding?
      requires store.uploads[call].key == stored.key && !store.uploads[call].phase.outcome.Interrupted?
      modifies store
      ensures store.Valid() && store.View() == Run(start, longer)
      ensures call in store.uploads && store.uploads[call] == old(store.uploads)[call].(phase :=
                if removed then Ended(old(store.uploads)[call].phase.outcome, false) else Ended(Unavailable, true))
    {
      hide Run, Inv, Next;
      longer := Pause(mine, start, trace);
      removed := DiscardDuplicate(call, stored.key);
      S.Extend(start, longer, Discard(call, removed));
      longer := longer + [Discard(call, removed)];
    }
  }

  lemma FreshNow(w: World, c: CallId, ids: seq<(RecordingId, TaskId)>, i: nat)
    requires i < |ids| && Distinct(ids) && S.Unused(w, Ids(c, ids, i))
    ensures ids[i].0 !in w.past.usedRecordings && ids[i].1 !in w.past.usedTasks
    ensures ids[i].0 !in Ids(c, ids, i + 1).recordings && ids[i].1 !in Ids(c, ids, i + 1).tasks
    ensures S.Unused(w, Ids(c, ids, i + 1))
  {
    assert ids[i].0 in Ids(c, ids, i).recordings && ids[i].1 in Ids(c, ids, i).tasks;
    assert Ids(c, ids, i + 1).recordings <= Ids(c, ids, i).recordings;
    assert Ids(c, ids, i + 1).tasks <= Ids(c, ids, i).tasks;
  }

  // ---------- Closed forms of the steps above ----------

  lemma InsertStays(w: World, e: Event)
    requires Inv(w) && e.InsertRows? && MayInsert(w, e) && !Commits(w, e)
    ensures Inv(Next(w, e))
    ensures Next(w, e) == WithUpload(w, e.call, AfterInsert(w, e))
  {
    Kept(w, e);
  }

  lemma InsertLands(w: World, e: Event)
    requires Inv(w) && Inserts(w, e)
    ensures Inv(Next(w, e)) && Next(w, e) == Inserted(w, e)
  {
    Kept(w, e);
    InsertShape(w, e);
  }

  lemma ResolveFinds(w: World, e: Event)
    requires Inv(w) && e.Resolve? && Enabled(w, e) && e.hit.Some?
    ensures e.hit.value in w.past.firsts && w.past.firsts[e.hit.value] in w.db.tasks
    ensures var u := w.fs.uploads[e.call];
            var first := w.past.firsts[e.hit.value];
            Next(w, e) == WithUpload(w, e.call, u.(phase := Discarding(
              if Visible(w, e.hit.value) then Duplicate(e.hit.value, first, w.db.tasks[first].status)
              else RecordingDeleting)))
  {
    ResolveShape(w, e);
    LookupAnswers(w, e);
    assert IsFirst(w.db.tasks, e.hit.value, w.past.firsts[e.hit.value]);
  }

  lemma ResolveMisses(w: World, e: Event)
    requires e.Resolve? && Enabled(w, e) && e.hit.None?
    ensures Next(w, e) == WithUpload(w, e.call, NextRound(w.fs.uploads[e.call]))
  {
    ResolveShape(w, e);
  }

  lemma NextFailLookup(w: World, e: Event)
    requires e.FailLookup? && e.call in w.fs.uploads && w.fs.uploads[e.call].phase.Conflicted?
    ensures Next(w, e) == WithUpload(w, e.call, w.fs.uploads[e.call].(phase := Discarding(LookupFailed)))
  {
  }

  lemma NextDiscard(w: World, e: Event)
    requires e.Discard? && e.call in w.fs.uploads && w.fs.uploads[e.call].phase.Discarding?
    ensures Next(w, e) == UploadStep(w, e)
  {
  }

  lemma NextConfirm(w: World, e: Event)
    requires e.Confirm? && e.call in w.fs.uploads && w.fs.uploads[e.call].phase.Confirming?
    ensures Next(w, e) == UploadStep(w, e)
  {
  }

  lemma FirstTaskExists(w: World, r: RecordingId)
    requires Inv(w) && r in w.db.recordings
    ensures exists t :: t in w.db.tasks && w.db.tasks[t].recording == r && w.db.tasks[t].attempt == 1
  {
    assert IsFirst(w.db.tasks, r, w.past.firsts[r]);
  }

  lemma FirstIsOnly(w: World, r: RecordingId, t: TaskId)
    requires Inv(w) && IsFirst(w.db.tasks, r, t)
    ensures FirstTask(w.db.tasks, r) == Some(t)
    ensures r in w.db.recordings ==> w.past.firsts[r] == t
  {
    if r in w.db.recordings {
      assert IsFirst(w.db.tasks, r, w.past.firsts[r]);
    }
  }
}
