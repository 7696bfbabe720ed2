/**
 * The whole service as one state machine: two tables, one audio directory, and the program
 * counters of the uploads and deletions that are under way. Every transaction that takes row
 * locks is split into what it reads (`Read`), what it decides (`Body`) and what it writes
 * (`Install`), so that the lock-level machine can replay the same decisions on older reads.
 */
module System {
  import opened Domain
  import opened TaskRow

  // ---------- State ----------

  datatype Outcome =
    | Created(recording: RecordingId, task: TaskId)
    | Duplicate(recording: RecordingId, task: TaskId, status: Status)
    | UploadConflict
    | RecordingDeleting
    | Interrupted    // the transaction failed before COMMIT was sent
    | LookupFailed   // the lookup of the winning recording failed
    | Uncertain      // COMMIT was sent, its result could not be confirmed
    | Unavailable    // the upload's own file could not be cleaned up

  datatype Phase =
    | Saved                                             // file stored, INSERT is next
    | Conflicted                                        // the unique hash refused the INSERT
    | Confirming(recording: RecordingId, task: TaskId)  // COMMIT was sent and reported an error
    | Discarding(outcome: Outcome)                      // own file is to be deleted first
    | Ended(outcome: Outcome, leftover: bool)           // leftover: the cleanup failed
    | Crashed

  // `landed` says whether, and as which recording, this call's rows were really committed;
  // `pending` are the ids of a COMMIT that was lost on the way and may still take effect.
  datatype Upload = Upload(
    filename: string, key: Key, audio: Audio, round: nat, phase: Phase,
    landed: Option<RecordingId>, pending: Option<(RecordingId, TaskId)>)

  datatype Deletion = Deletion(recording: RecordingId, key: Key, unlinked: bool)

  datatype Tables = Tables(recordings: map<RecordingId, Recording>, tasks: map<TaskId, Task>)

  // The audio directory, and the progress of every call that works on it.
  datatype Calls = Calls(
    files: map<Key, Audio>,
    uploads: map<CallId, Upload>,
    deletions: map<CallId, Deletion>,
    owners: map<Key, RecordingId>,         // the recording of every key that was ever committed
    savers: map<Key, CallId>)              // the upload that saved each key

  // History no program can read: ids and tokens are never issued twice.
  datatype Past = Past(
    latest: map<RecordingId, Time>,        // last clock reading of a transaction on the recording
    tokens: set<Token>,                    // every token ever issued
    leases: set<Lease>,                    // every snapshot ever handed out
    homes: map<TaskId, RecordingId>,       // every task that ever had a row
    firsts: map<RecordingId, TaskId>,      // the attempt-1 task of every recording that had a row
    usedRecordings: set<RecordingId>,
    usedTasks: set<TaskId>)

  datatype World = World(cfg: Config, now: Time, db: Tables, fs: Calls, past: Past)

  datatype Commit = Landed | RolledBack | LandedButReportedError | LostWithError

  datatype Event =
    | Tick(now: Time)
    // queue transactions; `at` is the database clock the transaction reads
    | ClaimTask(recording: RecordingId, task: TaskId, token: Token, at: Time)
    | Heartbeat(lease: Lease, at: Time)
    | SaveTranscript(lease: Lease, text: string, at: Time)
    | CompleteTask(lease: Lease, summary: Summary, at: Time)
    | FailTask(lease: Lease, failure: Failure, retryable: bool, at: Time)
    // manual retry
    | Retry(source: TaskId, created: TaskId, at: Time)
    // upload
    | SaveFile(call: CallId, key: Key, audio: Audio, filename: string)
    | InsertRows(call: CallId, recording: RecordingId, task: TaskId, commit: Commit, at: Time)
    | LandLate(call: CallId, recording: RecordingId, task: TaskId, at: Time)
    | Resolve(call: CallId, hit: Option<RecordingId>)
    | FailLookup(call: CallId)
    | Confirm(call: CallId, answered: bool)
    | Discard(call: CallId, removed: bool)
    | CrashUpload(call: CallId)
    // deletion
    | Mark(call: CallId, recording: RecordingId, when: Time)
    | Unlink(call: CallId, removed: bool)
    | Remove(call: CallId)
    | CrashDeletion(call: CallId)

  const UPLOAD_ROUNDS := 3

  function Get<K, V>(m: map<K, V>, key: Option<K>): Option<V> {
    if key.Some? && key.value in m then Some(m[key.value]) else None
  }

  function Latest(w: World, r: RecordingId): Time {
    if r in w.past.latest then w.past.latest[r] else 0
  }

  predicate Shown(r: Option<Recording>) {
    r.Some? && r.value.deletedAt.None?
  }

  predicate Visible(w: World, r: RecordingId) {
    r in w.db.recordings && w.db.recordings[r].deletedAt.None?
  }

  // A transaction reads the clock after it got the recording's lock, hence after every earlier
  // transaction on that recording, and no later than it commits.
  predicate TimeOk(w: World, r: RecordingId, at: Time) {
    (r in w.past.latest ==> w.past.latest[r] <= at) && at <= w.now
  }

  predicate DigestTaken(w: World, digest: Digest) {
    exists r :: r in w.db.recordings && w.db.recordings[r].audio.digest == digest
  }

  // ---------- Transactions under row locks ----------

  predicate IsLeaseEvent(e: Event) {
    e.Heartbeat? || e.SaveTranscript? || e.CompleteTask? || e.FailTask?
  }

  predicate IsQueueEvent(e: Event) {
    e.ClaimTask? || IsLeaseEvent(e)
  }

  predicate IsTransaction(e: Event) {
    IsQueueEvent(e) || e.Retry? || e.Mark? || e.Remove? || e.Resolve?
  }

  function QueueTask(e: Event): TaskId
    requires IsQueueEvent(e)
  {
    if e.ClaimTask? then e.task else e.lease.task
  }

  function QueueRecording(e: Event): RecordingId
    requires IsQueueEvent(e)
  {
    if e.ClaimTask? then e.recording else e.lease.recording
  }

  function QueueOp(e: Event): Op
    requires IsQueueEvent(e)
  {
    match e
    case ClaimTask(_, _, token, _) => Take(token)
    case Heartbeat(lease, _) => Renew(lease.token)
    case SaveTranscript(lease, text, _) => Persist(lease.token, text)
    case CompleteTask(lease, summary, _) => Complete(lease.token, summary)
    case FailTask(lease, failure, retryable, _) => Fail(lease.token, lease.stage, failure, retryable)
  }

  datatype View = View(
    target: Option<RecordingId>,
    recording: Option<Recording>,
    task: Option<Task>,
    related: Option<TaskId>,      // retry: the direct successor; duplicate lookup: the first task
    upload: Option<Upload>,       // the caller's own progress, not shared
    deletion: Option<Deletion>)

  datatype Effect =
    | Keep
    | PutTask(task: TaskId, row: Task)
    | PutRecording(recording: RecordingId, kept: Recording)
    | DropRecording(recording: RecordingId)
    | Advance(upload: Upload)

  // The recording a transaction locks first.
  function TargetRecording(w: World, e: Event): Option<RecordingId>
    requires IsTransaction(e)
  {
    if IsQueueEvent(e) then Some(QueueRecording(e))
    else if e.Retry? then Get(w.past.homes, Some(e.source))
    else if e.Mark? then Some(e.recording)
    else if e.Remove? then (if e.call in w.fs.deletions then Some(w.fs.deletions[e.call].recording) else None)
    else e.hit
  }

  ghost predicate HasSuccessor(tasks: map<TaskId, Task>, source: TaskId, s: TaskId) {
    s in tasks && tasks[s].retryOf == Some(source)
  }

  ghost function Successor(tasks: map<TaskId, Task>, source: TaskId): (found: Option<TaskId>)
    ensures found.Some? ==> HasSuccessor(tasks, source, found.value)
    ensures found.None? ==> forall s :: !HasSuccessor(tasks, source, s)
  {
    if s :| HasSuccessor(tasks, source, s) then Some(s) else None
  }

  ghost predicate IsFirst(tasks: map<TaskId, Task>, r: RecordingId, t: TaskId) {
    t in tasks && tasks[t].recording == r && tasks[t].attempt == 1
  }

  ghost function FirstTask(tasks: map<TaskId, Task>, r: RecordingId): (found: Option<TaskId>)
    ensures found.Some? ==> IsFirst(tasks, r, found.value)
    ensures found.None? ==> forall t :: !IsFirst(tasks, r, t)
  {
    if t :| IsFirst(tasks, r, t) then Some(t) else None
  }

  // The task row a transaction locks second.
  ghost function TargetTask(w: World, e: Event): Option<TaskId>
    requires IsTransaction(e)
  {
    if IsQueueEvent(e) then Some(QueueTask(e))
    else if e.Retry? then Some(e.source)
    else if e.Resolve? && e.hit.Some? then FirstTask(w.db.tasks, e.hit.value)
    else None
  }

  ghost function Read(w: World, e: Event): View
    requires IsTransaction(e)
  {
    View(
      TargetRecording(w, e),
      Get(w.db.recordings, TargetRecording(w, e)),
      Get(w.db.tasks, TargetTask(w, e)),
      if e.Retry? then Successor(w.db.tasks, e.source) else if e.Resolve? then TargetTask(w, e) else None,
      if e.Resolve? then Get(w.fs.uploads, Some(e.call)) else None,
      if e.Remove? then Get(w.fs.deletions, Some(e.call)) else None)
  }

  // What a transaction decides, from the rows it has read under its locks.
  function Body(cfg: Config, e: Event, v: View): Effect
    requires IsTransaction(e)
  {
    if IsQueueEvent(e) then QueueBody(cfg, e, v)
    else if e.Retry? then RetryBody(e, v)
    else if e.Mark? then MarkBody(e, v)
    else if e.Remove? then RemoveBody(v)
    else ResolveBody(e, v)
  }

  function QueueBody(cfg: Config, e: Event, v: View): Effect
    requires IsQueueEvent(e)
  {
    if && Shown(v.recording) && v.task.Some?
       && (IsLeaseEvent(e) ==> v.task.value.recording == QueueRecording(e))
       && Accepts(v.task.value, QueueOp(e), e.at)
    then PutTask(QueueTask(e), Apply(cfg, v.task.value, QueueOp(e), e.at))
    else Keep
  }

  function RetryBody(e: Event, v: View): Effect
    requires e.Retry?
  {
    if Shown(v.recording) && v.task.Some? && v.task.value.status.Failed? && v.related.None? then
      PutTask(e.created, NewTask(v.target.GetOr(0), v.task.value.attempt + 1, Some(e.source), e.at))
    else Keep
  }

  function MarkBody(e: Event, v: View): Effect
    requires e.Mark?
  {
    if v.recording.None? then Keep
    else if v.recording.value.deletedAt.None? then
      PutRecording(e.recording, v.recording.value.(deletedAt := Some(e.when)))
    else PutRecording(e.recording, v.recording.value)
  }

  function RemoveBody(v: View): Effect {
    if v.deletion.Some? && v.recording.Some? && v.recording.value.deletedAt.Some?
       && v.recording.value.key == v.deletion.value.key
    then DropRecording(v.deletion.value.recording)
    else Keep
  }

  function ResolveBody(e: Event, v: View): Effect
    requires e.Resolve?
  {
    if v.upload.None? then Keep
    else if e.hit.None? then Advance(NextRound(v.upload.value))
    else Advance(v.upload.value.(phase := Discarding(DuplicateAnswer(e.hit.value, v))))
  }

  // The winner vanished between the failed INSERT and the lookup: try again, three times at most.
  function NextRound(u: Upload): Upload {
    if u.round + 1 < UPLOAD_ROUNDS then u.(round := u.round + 1, phase := Saved)
    else u.(phase := Discarding(UploadConflict))
  }

  function DuplicateAnswer(r: RecordingId, v: View): Outcome {
    if v.recording.None? || v.recording.value.deletedAt.Some? then RecordingDeleting
    else if v.related.None? || v.task.None? then UploadConflict
    else Duplicate(r, v.related.value, v.task.value.status)
  }

  function LeaseOf(e: Event, key: Key, t: Task): Lease
    requires e.ClaimTask?
  {
    Lease(e.recording, e.task, e.token, t.status, key, t.transcript)
  }

  // May the transaction run at all: its clock reading, its fresh ids, its caller's progress.
  predicate Enabled(w: World, e: Event)
    requires IsTransaction(e)
  {
    if IsQueueEvent(e) then
      && TimeOk(w, QueueRecording(e), e.at)
      && (e.ClaimTask? ==> e.token !in w.past.tokens && e.task in w.past.homes && w.past.homes[e.task] == e.recording)
    else if e.Retry? then
      (e.source in w.past.homes ==> TimeOk(w, w.past.homes[e.source], e.at)) && e.created !in w.past.usedTasks
    else if e.Mark? then e.call !in w.fs.deletions
    else if e.Remove? then e.call in w.fs.deletions && w.fs.deletions[e.call].unlinked
    else
      && e.call in w.fs.uploads && w.fs.uploads[e.call].phase.Conflicted?
      && (if e.hit.None? then !DigestTaken(w, w.fs.uploads[e.call].audio.digest)
          else e.hit.value in w.db.recordings
               && w.db.recordings[e.hit.value].audio.digest == w.fs.uploads[e.call].audio.digest)
  }

  // The table rows an effect writes; dropping a recording cascades to its tasks.
  function Rows(db: Tables, effect: Effect): Tables {
    match effect
    case PutTask(t, row) => db.(tasks := db.tasks[t := row])
    case PutRecording(r, row) => db.(recordings := db.recordings[r := row])
    case DropRecording(r) =>
      Tables(db.recordings - {r}, map t | t in db.tasks && db.tasks[t].recording != r :: db.tasks[t])
    case _ => db
  }

  // The progress of the calling upload or deletion.
  function Progress(fs: Calls, e: Event, effect: Effect): Calls
    requires IsTransaction(e)
  {
    if e.Mark? && effect.PutRecording? then
      fs.(deletions := fs.deletions[e.call := Deletion(e.recording, effect.kept.key, false)])
    else if e.Remove? then fs.(deletions := fs.deletions - {e.call})
    else if e.Resolve? && effect.Advance? then fs.(uploads := fs.uploads[e.call := effect.upload])
    else fs
  }

  // What is handed out or used up by the transaction.
  function Record(past: Past, e: Event, v: View, effect: Effect): Past
    requires IsTransaction(e)
  {
    if e.ClaimTask? && effect.PutTask? && v.recording.Some? then
      past.(tokens := past.tokens + {e.token},
      leases := past.leases + {LeaseOf(e, v.recording.value.key, effect.row)})
    else if e.SaveTranscript? && effect.PutTask? then
      past.(leases := past.leases + {e.lease.(stage := Summarizing, transcript := Some(e.text))})
    else if e.Retry? && effect.PutTask? then
      past.(homes := past.homes[e.created := effect.row.recording], usedTasks := past.usedTasks + {e.created})
    else past
  }

  // The clock reading stays with the recording.
  function Stamp(past: Past, e: Event, v: View): Past
    requires IsTransaction(e)
  {
    if (IsQueueEvent(e) || e.Retry?) && v.recording.Some? && v.target.Some?
    then past.(latest := past.latest[v.target.value := e.at])
    else past
  }

  function Install(w: World, e: Event, v: View, effect: Effect): World
    requires IsTransaction(e)
  {
    World(w.cfg, w.now, Rows(w.db, effect), Progress(w.fs, e, effect), Stamp(Record(w.past, e, v, effect), e, v))
  }

  ghost function Transact(w: World, e: Event): World
    requires IsTransaction(e)
  {
    if Enabled(w, e) then Install(w, e, Read(w, e), Body(w.cfg, e, Read(w, e))) else w
  }

  // ---------- Steps outside row locks ----------

  function WithUpload(w: World, call: CallId, u: Upload): World {
    w.(fs := w.fs.(uploads := w.fs.uploads[call := u]))
  }

  // The INSERT finds its call at the top of the loop and its generated ids unused.
  predicate MayInsert(w: World, e: Event)
    requires e.InsertRows?
  {
    && e.call in w.fs.uploads && w.fs.uploads[e.call].phase.Saved?
    && e.recording !in w.past.usedRecordings && e.task !in w.past.usedTasks && e.at <= w.now
  }

  // The transaction commits, whatever is reported to the caller.
  predicate Commits(w: World, e: Event)
    requires e.InsertRows? && MayInsert(w, e)
  {
    && !DigestTaken(w, w.fs.uploads[e.call].audio.digest)
    && (e.commit.Landed? || e.commit.LandedButReportedError?)
  }

  function AfterInsert(w: World, e: Event): Upload
    requires e.InsertRows? && MayInsert(w, e)
  {
    var u := w.fs.uploads[e.call];
    if e.commit.RolledBack? then u.(phase := Discarding(Interrupted))
    else if DigestTaken(w, u.audio.digest) then u.(phase := Conflicted)
    else if e.commit.LostWithError? then
      u.(phase := Confirming(e.recording, e.task), pending := Some((e.recording, e.task)))
    else u.(
      landed := Some(e.recording),
      phase := if e.commit.Landed? then Ended(Created(e.recording, e.task), false)
               else Confirming(e.recording, e.task))
  }

  function Insert(w: World, e: Event): World
    requires e.InsertRows?
  {
    if !MayInsert(w, e) then w
    else if !Commits(w, e) then WithUpload(w, e.call, AfterInsert(w, e))
    else WithRows(w, e, AfterInsert(w, e))
  }

  // Both rows appear together.
  function WithRows(w: World, e: Event, u: Upload): World
    requires e.InsertRows? || e.LandLate?
  {
    w.(
    db := Tables(
      w.db.recordings[e.recording := Recording(u.filename, u.key, u.audio, e.at, None)],
      w.db.tasks[e.task := NewTask(e.recording, 1, None, e.at)]),
    fs := w.fs.(
      uploads := w.fs.uploads[e.call := u],
      owners := w.fs.owners[u.key := e.recording]),
    past := w.past.(
      usedRecordings := w.past.usedRecordings + {e.recording},
      usedTasks := w.past.usedTasks + {e.task},
      latest := w.past.latest[e.recording := e.at],
      homes := w.past.homes[e.task := e.recording],
      firsts := w.past.firsts[e.recording := e.task]))
  }

  // A COMMIT whose reply was lost takes effect at last, even after its caller has looked for its
  // rows in vain, has answered, or has died.
  predicate MayLand(w: World, e: Event)
    requires e.LandLate?
  {
    && e.call in w.fs.uploads
    && var u := w.fs.uploads[e.call];
    && u.landed.None? && u.pending == Some((e.recording, e.task)) && !DigestTaken(w, u.audio.digest)
    && e.recording !in w.past.usedRecordings && e.task !in w.past.usedTasks && e.at <= w.now
  }

  function Land(w: World, e: Event): World
    requires e.LandLate?
  {
    if MayLand(w, e) then WithRows(w, e, w.fs.uploads[e.call].(landed := Some(e.recording))) else w
  }

  // The query that looks for the rows of a COMMIT whose reply was lost.
  predicate FoundCommitted(w: World, u: Upload, r: RecordingId, t: TaskId) {
    && Visible(w, r) && w.db.recordings[r].key == u.key
    && t in w.db.tasks && w.db.tasks[t].recording == r && w.db.tasks[t].attempt == 1
  }

  // How an upload's own progress answers an event that touches no row.
  function UploadProgress(w: World, u: Upload, e: Event): Upload
    requires e.FailLookup? || e.Confirm? || e.Discard? || e.CrashUpload?
  {
    if e.FailLookup? && u.phase.Conflicted? then u.(phase := Discarding(LookupFailed))
    else if e.Confirm? && u.phase.Confirming? then
      var found := e.answered && FoundCommitted(w, u, u.phase.recording, u.phase.task);
      u.(phase := Ended(if found then Created(u.phase.recording, u.phase.task) else Uncertain, false))
    else if e.Discard? && u.phase.Discarding? then
      if e.removed then u.(phase := Ended(u.phase.outcome, false))
      else u.(phase := Ended(if u.phase.outcome.Interrupted? then Interrupted else Unavailable, true))
    else if e.CrashUpload? && !u.phase.Ended? then u.(phase := Crashed)
    else u
  }

  // An upload's own file goes only when the upload itself discards it.
  predicate DropsOwnFile(w: World, e: Event) {
    e.Discard? && e.removed && e.call in w.fs.uploads && w.fs.uploads[e.call].phase.Discarding?
  }

  function UploadStep(w: World, e: Event): World
    requires e.FailLookup? || e.Confirm? || e.Discard? || e.CrashUpload?
  {
    if e.call !in w.fs.uploads then w
    else
      var u := w.fs.uploads[e.call];
      w.(fs := w.fs.(
        uploads := w.fs.uploads[e.call := UploadProgress(w, u, e)],
        files := if DropsOwnFile(w, e) then w.fs.files - {u.key} else w.fs.files))
  }

  // The unlink between the two delete transactions.
  predicate Unlinks(w: World, e: Event) {
    e.Unlink? && e.removed && e.call in w.fs.deletions && !w.fs.deletions[e.call].unlinked
  }

  function DeletionStep(w: World, e: Event): World
    requires e.Unlink? || e.CrashDeletion?
  {
    if Unlinks(w, e) then
      var d := w.fs.deletions[e.call];
      w.(fs := w.fs.(files := w.fs.files - {d.key}, deletions := w.fs.deletions[e.call := d.(unlinked := true)]))
    else if e.call in w.fs.deletions && (e.CrashDeletion? || !w.fs.deletions[e.call].unlinked) then
      w.(fs := w.fs.(deletions := w.fs.deletions - {e.call}))
    else w
  }

  predicate MaySave(w: World, e: Event)
    requires e.SaveFile?
  {
    e.call !in w.fs.uploads && e.key !in w.fs.savers && 0 < e.audio.size <= MAX_AUDIO_BYTES
  }

  function Save(w: World, e: Event): World
    requires e.SaveFile?
  {
    if !MaySave(w, e) then w
    else w.(fs := w.fs.(
      files := w.fs.files[e.key := e.audio],
      savers := w.fs.savers[e.key := e.call],
      uploads := w.fs.uploads[e.call := Upload(e.filename, e.key, e.audio, 0, Saved, None, None)]))
  }

  // The upload or deletion an event belongs to.
  function CallOf(e: Event): Option<CallId> {
    if e.Mark? || e.Remove? || e.Resolve? || e.Unlink? || e.CrashDeletion? || e.FailLookup? || e.Confirm?
       || e.Discard? || e.CrashUpload? || e.SaveFile? || e.InsertRows? || e.LandLate?
    then Some(e.call) else None
  }

  // ---------- Runs ----------

  // One atomic step. An event that is not possible in `w` changes nothing.
  ghost function Next(w: World, e: Event): World {
    if IsTransaction(e) then Transact(w, e)
    else if e.Tick? then (if w.now <= e.now then w.(now := e.now) else w)
    else if e.SaveFile? then Save(w, e)
    else if e.InsertRows? then Insert(w, e)
    else if e.LandLate? then Land(w, e)
    else if e.Unlink? || e.CrashDeletion? then DeletionStep(w, e)
    else UploadStep(w, e)
  }

  ghost function Run(w: World, es: seq<Event>): World
    decreases |es|
  {
    if es == [] then w else Run(Next(w, es[0]), es[1..])
  }

  lemma RunNothing(w: World)
    ensures Run(w, []) == w
  {
  }

  lemma {:induction false} RunAppend(w: World, es: seq<Event>, more: seq<Event>)
    ensures Run(w, es + more) == Run(Run(w, es), more)
    decreases |es|
  {
    if es == [] {
      assert es + more == more;
    } else {
      assert (es + more)[1..] == es[1..] + more;
      RunAppend(Next(w, es[0]), es[1..], more);
    }
  }

  // The empty service.
  predicate Start(w: World) {
    && ValidConfig(w.cfg)
    && w.db == Tables(map[], map[])
    && w.fs == Calls(map[], map[], map[], map[], map[])
    && w.past == Past(map[], {}, {}, map[], map[], {}, {})
  }
}
