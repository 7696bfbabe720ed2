/**
 * Transactions at the granularity of record-lock acquisition. Several transactions run at once;
 * each locks its recording, then its task rows, reads the clock, and commits. What it reads it
 * reads when it gets the lock; other commits and clock ticks come in between. Every such run
 * reaches the world that the atomic machine reaches by running the transactions one at a time in
 * commit order, and no transaction ever waits for a task lock.
 */
module Locks {
  import opened Domain
  import opened System
  import opened Shapes
  import opened Rows
  import opened Transcripts
  import opened Chain
  import opened Safety
  import opened Ordering

  type Pid = int

  datatype Stage = Begun | HasRecording | HasTask | Locked | Ready

  // A running transaction: what it is to do, how far it has come, and what it has read.
  datatype Proc = Proc(event: Event, target: RecordingId, stage: Stage, seen: View)

  datatype Low = Low(
    w: World,
    recordingLocks: map<RecordingId, Pid>,
    taskLocks: map<TaskId, Pid>,
    procs: map<Pid, Proc>)

  datatype Step =
    | Begin(p: Pid, e: Event)
    | LockRecording(p: Pid)
    | LockTask(p: Pid)
    | LockSuccessor(p: Pid)
    | LockCascade(p: Pid, t: TaskId)   // the DELETE locks the task rows it takes with it, one by one
    | ReadClock(p: Pid)
    | Commit(p: Pid)
    | Abort(p: Pid)      // rollback, crash, lock timeout, or a row skipped because it is locked
    | Other(e: Event)    // a step without row locks

  predicate HasTime(e: Event) {
    IsQueueEvent(e) || e.Retry?
  }

  // The event with the clock reading filled in.
  function At(e: Event, at: Time): Event {
    match e
    case ClaimTask(r, t, token, _) => ClaimTask(r, t, token, at)
    case Heartbeat(lease, _) => Heartbeat(lease, at)
    case SaveTranscript(lease, text, _) => SaveTranscript(lease, text, at)
    case CompleteTask(lease, summary, _) => CompleteTask(lease, summary, at)
    case FailTask(lease, failure, retryable, _) => FailTask(lease, failure, retryable, at)
    case Retry(source, created, _) => Retry(source, created, at)
    case _ => e
  }

  // Calls are sequential: nothing else happens to a call while its transaction runs.
  predicate Busy(s: Low, c: Option<CallId>) {
    c.Some? && exists p :: p in s.procs && CallOf(s.procs[p].event) == c
  }

  // The recording id comes from an unlocked read, which may be stale; such a pair was once in
  // the task table.
  predicate MayBegin(s: Low, p: Pid, e: Event) {
    && p !in s.procs && IsTransaction(e) && !Busy(s, CallOf(e))
    && TargetRecording(s.w, e).Some?
    && (e.ClaimTask? ==> e.task in s.w.past.homes && s.w.past.homes[e.task] == e.recording)
    && (IsLeaseEvent(e) ==> e.lease in s.w.past.leases)
    && (e.Mark? ==> e.call !in s.w.fs.deletions)
    && (e.Remove? ==> s.w.fs.deletions[e.call].unlinked)
    && (e.Resolve? ==> e.call in s.w.fs.uploads && s.w.fs.uploads[e.call].phase.Conflicted?)
  }

  ghost function FirstView(w: World, e: Event): View
    requires IsTransaction(e)
  {
    View(TargetRecording(w, e), None, None, None,
         if e.Resolve? then Get(w.fs.uploads, Some(e.call)) else None,
         if e.Remove? then Get(w.fs.deletions, Some(e.call)) else None)
  }

  predicate MayLockRecording(s: Low, p: Pid) {
    && p in s.procs && s.procs[p].stage.Begun?
    && s.procs[p].target !in s.recordingLocks
    && s.procs[p].target in s.w.db.recordings
    && (s.procs[p].event.Resolve? ==>
          && s.procs[p].seen.upload.Some?
          && s.w.db.recordings[s.procs[p].target].audio.digest == s.procs[p].seen.upload.value.audio.digest)
  }

  ghost predicate MayLockTask(s: Low, p: Pid) {
    && p in s.procs && s.procs[p].stage.HasRecording? && IsTransaction(s.procs[p].event)
    && var t := TargetTask(s.w, s.procs[p].event);
    t.Some? && t.value in s.w.db.tasks ==> t.value !in s.taskLocks
  }

  ghost predicate MayLockSuccessor(s: Low, p: Pid) {
    && p in s.procs && s.procs[p].stage.HasTask? && s.procs[p].event.Retry?
    && var t := Successor(s.w.db.tasks, s.procs[p].event.source);
    t.Some? ==> t.value !in s.taskLocks
  }

  // The task rows that go with a recording.
  predicate InCascade(w: World, proc: Proc, t: TaskId) {
    proc.event.Remove? && t in w.db.tasks && w.db.tasks[t].recording == proc.target
  }

  predicate MayLockCascade(s: Low, p: Pid, t: TaskId) {
    && p in s.procs && (s.procs[p].stage.Locked? || s.procs[p].stage.Ready?)
    && InCascade(s.w, s.procs[p], t) && (t in s.taskLocks ==> s.taskLocks[t] == p)
  }

  // Ids and tokens are generated fresh.
  predicate FreshIds(w: World, e: Event) {
    && (e.ClaimTask? ==> e.token !in w.past.tokens)
    && (e.Retry? ==> e.created !in w.past.usedTasks)
  }

  predicate MayCommit(s: Low, p: Pid) {
    && p in s.procs && s.procs[p].stage.Ready? && IsTransaction(s.procs[p].event)
    && FreshIds(s.w, s.procs[p].event)
    && (forall t :: t in s.w.db.tasks && InCascade(s.w, s.procs[p], t) ==> t in s.taskLocks && s.taskLocks[t] == p)
  }

  predicate MayOther(s: Low, e: Event) {
    && !Busy(s, CallOf(e))
    && (IsTransaction(e) ==> e.Resolve? && e.hit.None?)
  }

  function Free<K>(locks: map<K, Pid>, p: Pid): map<K, Pid> {
    map k | k in locks && locks[k] != p :: locks[k]
  }

  function Release(s: Low, p: Pid, w: World): Low {
    Low(w, Free(s.recordingLocks, p), Free(s.taskLocks, p), s.procs - {p})
  }

  function Taken(locks: map<TaskId, Pid>, db: Tables, t: Option<TaskId>, p: Pid): map<TaskId, Pid> {
    if t.Some? && t.value in db.tasks then locks[t.value := p] else locks
  }

  ghost function Began(s: Low, p: Pid, e: Event): Low
    requires MayBegin(s, p, e)
  {
    s.(procs := s.procs[p := Proc(e, TargetRecording(s.w, e).value, Begun, FirstView(s.w, e))])
  }

  function RecordingLocked(s: Low, p: Pid): Low
    requires MayLockRecording(s, p)
  {
    var proc := s.procs[p];
    s.(recordingLocks := s.recordingLocks[proc.target := p],
    procs := s.procs[p := proc.(
      stage := HasRecording,
      seen := proc.seen.(recording := Some(s.w.db.recordings[proc.target])))])
  }

  ghost function TaskLocked(s: Low, p: Pid): Low
    requires MayLockTask(s, p)
  {
    var proc := s.procs[p];
    var t := TargetTask(s.w, proc.event);
    s.(taskLocks := Taken(s.taskLocks, s.w.db, t, p),
    procs := s.procs[p := proc.(
      stage := if proc.event.Retry? then HasTask else Locked,
      seen := proc.seen.(task := Get(s.w.db.tasks, t), related := if proc.event.Resolve? then t else None))])
  }

  ghost function SuccessorLocked(s: Low, p: Pid): Low
    requires MayLockSuccessor(s, p)
  {
    var proc := s.procs[p];
    var t := Successor(s.w.db.tasks, proc.event.source);
    s.(taskLocks := Taken(s.taskLocks, s.w.db, t, p),
    procs := s.procs[p := proc.(stage := Locked, seen := proc.seen.(related := t))])
  }

  function CascadeLocked(s: Low, p: Pid, t: TaskId): Low {
    s.(taskLocks := s.taskLocks[t := p])
  }

  predicate MayReadClock(s: Low, p: Pid) {
    p in s.procs && s.procs[p].stage.Locked?
  }

  function ClockRead(s: Low, p: Pid): Low
    requires MayReadClock(s, p)
  {
    s.(procs := s.procs[p := s.procs[p].(stage := Ready, event := At(s.procs[p].event, s.w.now))])
  }

  ghost function Committed(s: Low, p: Pid): Low
    requires MayCommit(s, p)
  {
    var proc := s.procs[p];
    Release(s, p, Install(s.w, proc.event, proc.seen, Body(s.w.cfg, proc.event, proc.seen)))
  }

  ghost function LowNext(s: Low, step: Step): Low {
    match step
    case Begin(p, e) => if MayBegin(s, p, e) then Began(s, p, e) else s
    case LockRecording(p) => if MayLockRecording(s, p) then RecordingLocked(s, p) else s
    case LockTask(p) => if MayLockTask(s, p) then TaskLocked(s, p) else s
    case LockSuccessor(p) => if MayLockSuccessor(s, p) then SuccessorLocked(s, p) else s
    case LockCascade(p, t) => if MayLockCascade(s, p, t) then CascadeLocked(s, p, t) else s
    case ReadClock(p) => if MayReadClock(s, p) then ClockRead(s, p) else s
    case Commit(p) => if MayCommit(s, p) then Committed(s, p) else s
    case Abort(p) => Release(s, p, s.w)
    case Other(e) => if MayOther(s, e) then s.(w := Next(s.w, e)) else s
  }

  // ---------- The invariant ----------

  predicate Holding(proc: Proc) {
    !proc.stage.Begun?
  }

  predicate HasRead(proc: Proc) {
    proc.stage.HasTask? || proc.stage.Locked? || proc.stage.Ready?
  }

  predicate HasReadAll(proc: Proc) {
    proc.stage.Locked? || proc.stage.Ready?
  }

  ghost function Related(w: World, e: Event): Option<TaskId>
    requires IsTransaction(e)
  {
    if e.Retry? then Successor(w.db.tasks, e.source) else if e.Resolve? then TargetTask(w, e) else None
  }

  // What the process knows of the task table.
  ghost predicate TaskView(w: World, proc: Proc)
    requires IsTransaction(proc.event)
  {
    var e := proc.event;
    && (HasRead(proc) ==> proc.seen.task == Get(w.db.tasks, TargetTask(w, e)))
    && (HasReadAll(proc) ==> proc.seen.related == Related(w, e))
  }

  // What it knows of its own call.
  predicate CallView(w: World, proc: Proc)
    requires IsTransaction(proc.event)
  {
    var e := proc.event;
    && (e.Resolve? ==> && e.hit == Some(proc.target)
                       && e.call in w.fs.uploads && w.fs.uploads[e.call].phase.Conflicted?)
    && proc.seen.upload == (if e.Resolve? then Get(w.fs.uploads, Some(e.call)) else None)
    && (e.Remove? ==> e.call in w.fs.deletions && w.fs.deletions[e.call].unlinked)
    && proc.seen.deletion == (if e.Remove? then Get(w.fs.deletions, Some(e.call)) else None)
    && (e.Mark? ==> e.call !in w.fs.deletions)
    && (e.Resolve? && Holding(proc) && proc.target in w.db.recordings ==>
          w.db.recordings[proc.target].audio.digest == w.fs.uploads[e.call].audio.digest)
  }

  // The pair (task, recording) a process works on was once in the table.
  predicate KnownPair(w: World, proc: Proc)
    requires IsTransaction(proc.event)
  {
    var e := proc.event;
    && (IsQueueEvent(e) ==> QueueRecording(e) == proc.target
                            && QueueTask(e) in w.past.homes && w.past.homes[QueueTask(e)] == proc.target)
    && (e.Retry? ==> e.source in w.past.homes && w.past.homes[e.source] == proc.target)
    && (e.Mark? ==> e.recording == proc.target)
  }

  ghost predicate ProcOk(s: Low, p: Pid)
    requires p in s.procs
  {
    var proc := s.procs[p];
    && IsTransaction(proc.event)
    && proc.seen.target == Some(proc.target)
    && TargetRecording(s.w, proc.event) == Some(proc.target)
    && KnownPair(s.w, proc) && CallView(s.w, proc) && TaskView(s.w, proc)
    && (Holding(proc) ==>
          && proc.target in s.recordingLocks && s.recordingLocks[proc.target] == p
          && proc.seen.recording == Get(s.w.db.recordings, Some(proc.target))
          && proc.target in s.w.db.recordings)
    && (proc.stage.Ready? && HasTime(proc.event) ==> TimeOk(s.w, proc.target, proc.event.at))
  }

  predicate LocksOk(s: Low) {
    && (forall r :: r in s.recordingLocks ==>
          var p := s.recordingLocks[r];
          p in s.procs && Holding(s.procs[p]) && s.procs[p].target == r)
    && (forall t :: t in s.taskLocks ==>
          var p := s.taskLocks[t];
          && p in s.procs && HasRead(s.procs[p])
          && t in s.w.past.homes && s.w.past.homes[t] == s.procs[p].target
          && (s.procs[p].stage.HasTask? && s.procs[p].event.Retry? ==> t == s.procs[p].event.source))
  }

  predicate CallsApart(s: Low) {
    forall p, q ::
      (p in s.procs && q in s.procs && CallOf(s.procs[p].event).Some?
       && CallOf(s.procs[p].event) == CallOf(s.procs[q].event)) ==> p == q
  }

  ghost predicate LowInv(s: Low) {
    && Inv(s.w) && LocksOk(s) && CallsApart(s)
    && (forall p :: p in s.procs ==> ProcOk(s, p))
  }

  // ---------- What a step leaves alone ----------

  // Nothing a transaction on `r` could have read has changed.
  predicate Undisturbed(w: World, w': World, r: RecordingId) {
    && w.now <= w'.now
    && r in w.db.recordings && r in w'.db.recordings && w'.db.recordings[r] == w.db.recordings[r]
    && (r in w'.past.latest ==> r in w.past.latest && w'.past.latest[r] == w.past.latest[r])
    && (forall t :: t in w.past.homes ==> t in w'.past.homes && w'.past.homes[t] == w.past.homes[t])
    && (forall t :: t in w.past.homes && w.past.homes[t] == r ==>
          Get(w'.db.tasks, Some(t)) == Get(w.db.tasks, Some(t)))
    && (forall t :: t in w'.db.tasks && w'.db.tasks[t].recording == r ==> t in w.db.tasks)
  }

  lemma OthersUndisturbed(w: World, e: Event, r: RecordingId)
    requires Inv(w) && r in w.db.recordings
    requires IsTransaction(e) ==> TargetRecording(w, e) != Some(r)
    ensures Undisturbed(w, Next(w, e), r)
  {
    var w' := Next(w, e);
    Kept(w, e);
    RecordingShape(w, e, r);
    forall t | t in w.past.homes && w.past.homes[t] == r
      ensures Get(w'.db.tasks, Some(t)) == Get(w.db.tasks, Some(t))
    {
      RowElsewhere(w, e, t, r);
    }
    forall t | t in w'.db.tasks && w'.db.tasks[t].recording == r ensures t in w.db.tasks {
      NoBirthElsewhere(w, e, t, r);
    }
    LatestElsewhere(w, e, r);
  }

  lemma RowElsewhere(w: World, e: Event, t: TaskId, r: RecordingId)
    requires Inv(w) && r in w.db.recordings && t in w.past.homes && w.past.homes[t] == r
    requires IsTransaction(e) ==> TargetRecording(w, e) != Some(r)
    requires r in Next(w, e).db.recordings
    ensures Get(Next(w, e).db.tasks, Some(t)) == Get(w.db.tasks, Some(t))
  {
    Kept(w, e);
    assert RowStep(w, e, Next(w, e), t);
    assert t in w.db.tasks ==> RowInv(w, t);
  }

  lemma NoBirthElsewhere(w: World, e: Event, t: TaskId, r: RecordingId)
    requires Inv(w) && r in w.db.recordings
    requires IsTransaction(e) ==> TargetRecording(w, e) != Some(r)
    requires t in Next(w, e).db.tasks && Next(w, e).db.tasks[t].recording == r
    ensures t in w.db.tasks
  {
    if t !in w.db.tasks {
      BornOf(w, e, t);
    }
  }

  lemma LatestElsewhere(w: World, e: Event, r: RecordingId)
    requires Inv(w) && r in w.db.recordings
    requires IsTransaction(e) ==> TargetRecording(w, e) != Some(r)
    ensures r in Next(w, e).past.latest ==> r in w.past.latest && Next(w, e).past.latest[r] == w.past.latest[r]
  {
    if IsQueueEvent(e) {
      QueueShape(w, e);
    } else if e.Retry? {
      RetryShape(w, e);
    } else if e.Mark? {
      MarkShape(w, e);
    } else if e.Remove? {
      RemoveShape(w, e);
    } else if e.Resolve? {
      ResolveShape(w, e);
    } else if Inserts(w, e) {
      InsertShape(w, e);
    } else {
      OtherShape(w, e);
    }
  }

  lemma SuccessorUndisturbed(w: World, w': World, r: RecordingId, source: TaskId)
    requires Inv(w) && Inv(w') && Undisturbed(w, w', r)
    requires source in w.past.homes && w.past.homes[source] == r
    ensures Successor(w'.db.tasks, source) == Successor(w.db.tasks, source)
  {
    var one, other := Successor(w.db.tasks, source), Successor(w'.db.tasks, source);
    if one.Some? {
      assert Linked(w.db.tasks, one.value) && RowInv(w, one.value) && RowInv(w, source);
      assert HasSuccessor(w'.db.tasks, source, one.value);
    }
    if other.Some? {
      assert Linked(w'.db.tasks, other.value) && RowInv(w', other.value) && RowInv(w', source);
      assert RowInv(w, other.value);
      assert HasSuccessor(w.db.tasks, source, other.value);
    }
  }

  lemma FirstUndisturbed(w: World, w': World, r: RecordingId)
    requires Inv(w) && Inv(w') && Undisturbed(w, w', r)
    ensures FirstTask(w'.db.tasks, r) == FirstTask(w.db.tasks, r)
  {
    var t := w.past.firsts[r];
    assert IsFirst(w.db.tasks, r, t) && RowInv(w, t);
    assert IsFirst(w'.db.tasks, r, t);
  }

  lemma TaskViewKept(w: World, w': World, proc: Proc)
    requires Inv(w) && Inv(w') && IsTransaction(proc.event) && KnownPair(w, proc) && TaskView(w, proc)
    requires HasRead(proc) || HasReadAll(proc) ==> Undisturbed(w, w', proc.target)
    requires proc.event.Resolve? ==> proc.event.hit == Some(proc.target)
    ensures TaskView(w', proc)
  {
    if HasRead(proc) || HasReadAll(proc) {
      if proc.event.Retry? {
        SuccessorUndisturbed(w, w', proc.target, proc.event.source);
      }
      if proc.event.Resolve? {
        FirstUndisturbed(w, w', proc.target);
        FirstIsHome(w, proc.target);
      }
    }
  }

  lemma CallViewKept(w: World, w': World, e: Event, proc: Proc)
    requires IsTransaction(proc.event) && CallView(w, proc)
    requires CallOf(proc.event).Some? ==>
               && Get(w'.fs.uploads, CallOf(proc.event)) == Get(w.fs.uploads, CallOf(proc.event))
               && Get(w'.fs.deletions, CallOf(proc.event)) == Get(w.fs.deletions, CallOf(proc.event))
    requires Holding(proc) ==> Undisturbed(w, w', proc.target)
    ensures CallView(w', proc)
    ensures TargetRecording(w, proc.event) == Some(proc.target) && KnownPair(w, proc)
            && (proc.event.Retry? ==> proc.event.source in w'.past.homes
                                      && w'.past.homes[proc.event.source] == proc.target)
            ==> TargetRecording(w', proc.event) == Some(proc.target)
  {
  }

  // A process keeps its knowledge across a commit of another process or a step without locks.
  lemma ProcKept(s: Low, s': Low, p: Pid, e: Event)
    requires Inv(s.w) && p in s.procs && ProcOk(s, p)
    requires s'.w == Next(s.w, e) && p in s'.procs && s'.procs[p] == s.procs[p]
    requires Holding(s.procs[p]) && IsTransaction(e) ==> TargetRecording(s.w, e) != Some(s.procs[p].target)
    requires CallOf(e).Some? ==> CallOf(e) != CallOf(s.procs[p].event)
    requires Holding(s.procs[p]) ==>
               s.procs[p].target in s'.recordingLocks && s'.recordingLocks[s.procs[p].target] == p
    ensures ProcOk(s', p)
  {
    var proc := s.procs[p];
    Kept(s.w, e);
    if CallOf(proc.event).Some? {
      CallUndisturbed(s.w, e, CallOf(proc.event).value);
    }
    if Holding(proc) {
      OthersUndisturbed(s.w, e, proc.target);
    }
    ProcKeptBy(s, s', p, e);
  }

  lemma ProcKeptBy(s: Low, s': Low, p: Pid, e: Event)
    requires Inv(s.w) && Inv(s'.w) && p in s.procs && ProcOk(s, p)
    requires p in s'.procs && s'.procs[p] == s.procs[p] && Later(s.w, s'.w)
    requires Holding(s.procs[p]) ==> Undisturbed(s.w, s'.w, s.procs[p].target)
    requires var c := CallOf(s.procs[p].event);
             c.Some? ==> && Get(s'.w.fs.uploads, c) == Get(s.w.fs.uploads, c)
                         && Get(s'.w.fs.deletions, c) == Get(s.w.fs.deletions, c)
    requires Holding(s.procs[p]) ==>
               s.procs[p].target in s'.recordingLocks && s'.recordingLocks[s.procs[p].target] == p
    ensures ProcOk(s', p)
  {
    TaskViewKept(s.w, s'.w, s.procs[p]);
    CallViewKept(s.w, s'.w, e, s.procs[p]);
  }

  lemma FirstIsHome(w: World, r: RecordingId)
    requires Inv(w) && r in w.db.recordings
    ensures FirstTask(w.db.tasks, r).Some?
    ensures FirstTask(w.db.tasks, r).value in w.past.homes && w.past.homes[FirstTask(w.db.tasks, r).value] == r
  {
    assert IsFirst(w.db.tasks, r, w.past.firsts[r]);
    assert RowInv(w, FirstTask(w.db.tasks, r).value);
  }

  // ---------- Refinement ----------

  // A commit decides on rows read long before, yet does exactly what the whole transaction would
  // do if it ran at this moment, with the clock reading it took.
  lemma CommitIsSerial(s: Low, p: Pid)
    requires LowInv(s) && MayCommit(s, p)
    ensures Read(s.w, s.procs[p].event) == s.procs[p].seen
    ensures Enabled(s.w, s.procs[p].event)
    ensures Committed(s, p).w == Next(s.w, s.procs[p].event)
  {
    assert ProcOk(s, p);
  }

  // What a lock-level step means to the atomic machine.
  function Meaning(s: Low, step: Step): seq<Event> {
    if step.Commit? && MayCommit(s, step.p) then [s.procs[step.p].event]
    else if step.Other? && MayOther(s, step.e) then [step.e]
    else []
  }

  lemma RunOne(w: World, e: Event)
    ensures Run(w, [e]) == Next(w, e)
  {
    assert [e][1..] == [];
    assert Run(Next(w, e), []) == Next(w, e);
  }

  lemma StepRefines(s: Low, step: Step)
    requires LowInv(s)
    ensures LowNext(s, step).w == Run(s.w, Meaning(s, step))
  {
    if step.Commit? && MayCommit(s, step.p) {
      CommitIsSerial(s, step.p);
      RunOne(s.w, s.procs[step.p].event);
    } else if step.Other? && MayOther(s, step.e) {
      RunOne(s.w, step.e);
    }
  }

  // ---------- The invariant is kept ----------

  // Processes other than `p` do not notice what `p` locks or learns.
  lemma OthersOk(s: Low, s': Low, p: Pid)
    requires LowInv(s) && s'.w == s.w
    requires forall q :: q in s'.procs && q != p ==> q in s.procs && s'.procs[q] == s.procs[q]
    requires forall r :: r in s.recordingLocks && s.recordingLocks[r] != p ==>
                           r in s'.recordingLocks && s'.recordingLocks[r] == s.recordingLocks[r]
    ensures forall q :: q in s'.procs && q != p ==> ProcOk(s', q)
  {
    forall q | q in s'.procs && q != p ensures ProcOk(s', q) { assert ProcOk(s, q); }
  }

  lemma BeganProc(s: Low, p: Pid, e: Event)
    requires LeasesInv(s.w) && MayBegin(s, p, e)
    ensures ProcOk(Began(s, p, e), p)
  {
    if IsLeaseEvent(e) {
      assert LeaseAgrees(s.w, e.lease);
    }
  }

  lemma BeganLocks(s: Low, p: Pid, e: Event)
    requires LocksOk(s) && CallsApart(s) && MayBegin(s, p, e)
    ensures LocksOk(Began(s, p, e)) && CallsApart(Began(s, p, e))
  {
  }

  lemma BeganKept(s: Low, p: Pid, e: Event)
    requires LowInv(s) && MayBegin(s, p, e)
    ensures LowInv(Began(s, p, e))
  {
    OthersOk(s, Began(s, p, e), p);
    BeganProc(s, p, e);
    BeganLocks(s, p, e);
  }

  lemma RecordingLockedProc(s: Low, p: Pid)
    requires MayLockRecording(s, p) && ProcOk(s, p)
    ensures ProcOk(RecordingLocked(s, p), p)
  {
  }

  lemma RecordingLockedLocks(s: Low, p: Pid)
    requires LocksOk(s) && CallsApart(s) && MayLockRecording(s, p)
    ensures LocksOk(RecordingLocked(s, p)) && CallsApart(RecordingLocked(s, p))
  {
  }

  lemma RecordingLockedKept(s: Low, p: Pid)
    requires LowInv(s) && MayLockRecording(s, p)
    ensures LowInv(RecordingLocked(s, p))
  {
    OthersOk(s, RecordingLocked(s, p), p);
    RecordingLockedProc(s, p);
    RecordingLockedLocks(s, p);
  }

  lemma TaskLockedProc(s: Low, p: Pid)
    requires MayLockTask(s, p) && ProcOk(s, p)
    ensures ProcOk(TaskLocked(s, p), p)
  {
  }

  // A process only asks for tasks of the recording it has locked.
  predicate AtHome(w: World, r: RecordingId, t: Option<TaskId>) {
    t.Some? ==> t.value in w.past.homes && w.past.homes[t.value] == r
  }

  lemma TaskIsHome(s: Low, p: Pid)
    requires LowInv(s) && p in s.procs && Holding(s.procs[p])
    ensures IsTransaction(s.procs[p].event)
    ensures AtHome(s.w, s.procs[p].target, TargetTask(s.w, s.procs[p].event))
  {
    assert ProcOk(s, p);
    if s.procs[p].event.Resolve? {
      FirstIsHome(s.w, s.procs[p].target);
    }
  }

  lemma TaskLockedLocks(s: Low, p: Pid)
    requires LocksOk(s) && CallsApart(s) && MayLockTask(s, p)
    requires AtHome(s.w, s.procs[p].target, TargetTask(s.w, s.procs[p].event))
    ensures LocksOk(TaskLocked(s, p)) && CallsApart(TaskLocked(s, p))
  {
  }

  lemma TaskLockedKept(s: Low, p: Pid)
    requires LowInv(s) && MayLockTask(s, p)
    ensures LowInv(TaskLocked(s, p))
  {
    OthersOk(s, TaskLocked(s, p), p);
    TaskLockedProc(s, p);
    TaskIsHome(s, p);
    TaskLockedLocks(s, p);
  }

  lemma SuccessorLockedProc(s: Low, p: Pid)
    requires MayLockSuccessor(s, p) && ProcOk(s, p)
    ensures ProcOk(SuccessorLocked(s, p), p)
  {
  }

  lemma SuccessorIsHome(w: World, source: TaskId)
    requires Inv(w) && source in w.past.homes
    ensures var t := Successor(w.db.tasks, source);
            t.Some? ==> && t.value in w.past.homes && w.past.homes[t.value] == w.past.homes[source]
                        && t.value != source
  {
    var t := Successor(w.db.tasks, source);
    if t.Some? {
      assert Linked(w.db.tasks, t.value) && RowInv(w, t.value) && RowInv(w, source);
    }
  }

  lemma SuccessorLockedLocks(s: Low, p: Pid)
    requires LocksOk(s) && CallsApart(s) && MayLockSuccessor(s, p)
    requires AtHome(s.w, s.procs[p].target, Successor(s.w.db.tasks, s.procs[p].event.source))
    ensures LocksOk(SuccessorLocked(s, p)) && CallsApart(SuccessorLocked(s, p))
  {
  }

  lemma SuccessorLockedKept(s: Low, p: Pid)
    requires LowInv(s) && MayLockSuccessor(s, p)
    ensures LowInv(SuccessorLocked(s, p))
  {
    OthersOk(s, SuccessorLocked(s, p), p);
    SuccessorLockedProc(s, p);
    SuccessorIsHome(s.w, s.procs[p].event.source);
    SuccessorLockedLocks(s, p);
  }

  lemma CascadeLockedKept(s: Low, p: Pid, t: TaskId)
    requires LowInv(s) && MayLockCascade(s, p, t)
    ensures LowInv(CascadeLocked(s, p, t))
  {
    var s' := CascadeLocked(s, p, t);
    assert RowInv(s.w, t);
    CascadeLockedLocks(s, p, t);
    forall q | q in s'.procs ensures ProcOk(s', q) {
      assert ProcOk(s, q);
    }
  }

  lemma CascadeLockedLocks(s: Low, p: Pid, t: TaskId)
    requires LocksOk(s) && CallsApart(s) && MayLockCascade(s, p, t)
    requires t in s.w.past.homes && s.w.past.homes[t] == s.procs[p].target
    ensures LocksOk(CascadeLocked(s, p, t)) && CallsApart(CascadeLocked(s, p, t))
  {
  }

  lemma ClockReadProc(s: Low, p: Pid)
    requires MayReadClock(s, p) && ProcOk(s, p)
    requires s.procs[p].target in s.w.past.latest ==> s.w.past.latest[s.procs[p].target] <= s.w.now
    ensures ProcOk(ClockRead(s, p), p)
  {
    AtKeepsMeaning(s.w, s.procs[p].event, s.w.now);
  }

  // Reading the clock changes neither what is locked nor who is calling.
  lemma AtKeepsMeaning(w: World, e: Event, now: Time)
    requires IsTransaction(e)
    ensures IsTransaction(At(e, now)) && CallOf(At(e, now)) == CallOf(e)
    ensures TargetRecording(w, At(e, now)) == TargetRecording(w, e)
    ensures TargetTask(w, At(e, now)) == TargetTask(w, e) && Related(w, At(e, now)) == Related(w, e)
    ensures HasTime(e) ==> At(e, now).at == now
    ensures !HasTime(e) ==> At(e, now) == e
  {
  }

  lemma ClockReadLocks(s: Low, p: Pid)
    requires LocksOk(s) && CallsApart(s) && MayReadClock(s, p) && IsTransaction(s.procs[p].event)
    ensures LocksOk(ClockRead(s, p)) && CallsApart(ClockRead(s, p))
  {
    AtKeepsMeaning(s.w, s.procs[p].event, s.w.now);
  }

  lemma ClockReadKept(s: Low, p: Pid)
    requires LowInv(s) && MayReadClock(s, p)
    ensures LowInv(ClockRead(s, p))
  {
    var s' := ClockRead(s, p);
    assert ProcOk(s, p);
    OthersOk(s, s', p);
    ClockReadProc(s, p);
    ClockReadLocks(s, p);
  }

  // Releasing one process's locks leaves the others theirs.
  lemma ReleaseKept(s: Low, p: Pid)
    requires LowInv(s)
    ensures LowInv(Release(s, p, s.w))
  {
    OthersOk(s, Release(s, p, s.w), p);
  }

  lemma CommittedProcs(s: Low, p: Pid, q: Pid)
    requires LowInv(s) && MayCommit(s, p) && q in s.procs && q != p
    ensures ProcOk(Committed(s, p), q)
  {
    CommitIsSerial(s, p);
    assert ProcOk(s, p) && ProcOk(s, q);
    ProcKept(s, Committed(s, p), q, s.procs[p].event);
  }

  lemma CommitKept(s: Low, p: Pid)
    requires LowInv(s) && MayCommit(s, p)
    ensures LowInv(Committed(s, p))
  {
    var s' := Committed(s, p);
    CommitIsSerial(s, p);
    Kept(s.w, s.procs[p].event);
    ReleaseKept(s, p);
    LocksSurvive(Release(s, p, s.w), s');
    forall q | q in s'.procs ensures ProcOk(s', q) {
      CommittedProcs(s, p, q);
    }
  }

  lemma LocksSurvive(s: Low, s': Low)
    requires LocksOk(s) && CallsApart(s) && Later(s.w, s'.w)
    requires s' == s.(w := s'.w)
    ensures LocksOk(s') && CallsApart(s')
  {
  }

  lemma OtherKept(s: Low, e: Event)
    requires LowInv(s) && MayOther(s, e)
    ensures LowInv(s.(w := Next(s.w, e)))
  {
    var s' := s.(w := Next(s.w, e));
    Kept(s.w, e);
    LocksSurvive(s, s');
    forall q | q in s'.procs ensures ProcOk(s', q) {
      assert ProcOk(s, q);
      ProcKept(s, s', q, e);
    }
  }

  lemma LowKept(s: Low, step: Step)
    requires LowInv(s)
    ensures LowInv(LowNext(s, step))
  {
    match step
    case Begin(p, e) => if MayBegin(s, p, e) { BeganKept(s, p, e); }
    case LockRecording(p) => if MayLockRecording(s, p) { RecordingLockedKept(s, p); }
    case LockTask(p) => if MayLockTask(s, p) { TaskLockedKept(s, p); }
    case LockSuccessor(p) => if MayLockSuccessor(s, p) { SuccessorLockedKept(s, p); }
    case LockCascade(p, t) => if MayLockCascade(s, p, t) { CascadeLockedKept(s, p, t); }
    case ReadClock(p) => if MayReadClock(s, p) { ClockReadKept(s, p); }
    case Commit(p) => if MayCommit(s, p) { CommitKept(s, p); }
    case Abort(p) => ReleaseKept(s, p);
    case Other(e) => if MayOther(s, e) { OtherKept(s, e); }
  }

  ghost function LowRun(s: Low, steps: seq<Step>): Low
    decreases |steps|
  {
    if steps == [] then s else LowRun(LowNext(s, steps[0]), steps[1..])
  }

  // The transactions of a lock-level run in the order they commit, with the steps in between.
  ghost function CommitOrder(s: Low, steps: seq<Step>): seq<Event>
    decreases |steps|
  {
    if steps == [] then [] else Meaning(s, steps[0]) + CommitOrder(LowNext(s, steps[0]), steps[1..])
  }

  // Any interleaving of lock acquisitions reaches the database that the transactions reach when
  // they run atomically, one after the other, in commit order.
  lemma {:induction false} InterleavingsAreSerial(s: Low, steps: seq<Step>)
    requires LowInv(s)
    ensures LowInv(LowRun(s, steps))
    ensures LowRun(s, steps).w == Run(s.w, CommitOrder(s, steps))
    decreases |steps|
  {
    if steps != [] {
      var s1 := LowNext(s, steps[0]);
      LowKept(s, steps[0]);
      StepRefines(s, steps[0]);
      InterleavingsAreSerial(s1, steps[1..]);
      RunAppend(s.w, Meaning(s, steps[0]), CommitOrder(s1, steps[1..]));
    }
  }

  // ---------- Waiting ----------

  // A process waits when another one holds the next lock it asks for.
  ghost predicate Waits(s: Low, p: Pid, q: Pid) {
    && p in s.procs && q in s.procs && p != q
    && var proc := s.procs[p];
    && IsTransaction(proc.event)
    && (|| (proc.stage.Begun? && Get(s.recordingLocks, Some(proc.target)) == Some(q))
        || (proc.stage.HasRecording? && Get(s.taskLocks, TargetTask(s.w, proc.event)) == Some(q))
        || (proc.stage.HasTask? && proc.event.Retry?
            && Get(s.taskLocks, Successor(s.w.db.tasks, proc.event.source)) == Some(q))
        || (HasReadAll(proc) && exists t :: InCascade(s.w, proc, t) && Get(s.taskLocks, Some(t)) == Some(q)))
  }

  lemma CascadeIsFree(s: Low, p: Pid)
    requires LowInv(s) && p in s.procs && HasReadAll(s.procs[p])
    ensures forall t :: InCascade(s.w, s.procs[p], t) ==> MayLockCascade(s, p, t)
  {
    assert ProcOk(s, p);
    forall t | InCascade(s.w, s.procs[p], t) ensures MayLockCascade(s, p, t) {
      assert RowInv(s.w, t);
    }
  }

  // No transaction ever waits for a task lock, nor finds one held by itself.
  lemma TaskLocksAreFree(s: Low, p: Pid)
    requires LowInv(s) && p in s.procs
    ensures s.procs[p].stage.HasRecording? ==> MayLockTask(s, p)
    ensures s.procs[p].stage.HasTask? && s.procs[p].event.Retry? ==> MayLockSuccessor(s, p)
    ensures HasReadAll(s.procs[p]) ==>
              forall t :: InCascade(s.w, s.procs[p], t) ==> MayLockCascade(s, p, t)
  {
    assert ProcOk(s, p);
    var proc := s.procs[p];
    if HasReadAll(proc) {
      CascadeIsFree(s, p);
    }
    if Holding(proc) {
      TaskIsHome(s, p);
    }
    if proc.event.Retry? {
      SuccessorIsHome(s.w, proc.event.source);
    }
  }

  // A process that waits holds no lock, and the one it waits for does not wait.
  lemma WaitersHoldNothing(s: Low, p: Pid, q: Pid)
    requires LowInv(s) && Waits(s, p, q)
    ensures s.procs[p].stage.Begun?
    ensures forall r :: r in s.recordingLocks ==> s.recordingLocks[r] != p
    ensures forall t :: t in s.taskLocks ==> s.taskLocks[t] != p
    ensures !s.procs[q].stage.Begun?
  {
    TaskLocksAreFree(s, p);
  }

  lemma HoldersDoNotWait(s: Low, p: Pid, q: Pid, x: Pid)
    requires LowInv(s) && Waits(s, p, q)
    ensures !Waits(s, q, x)
  {
    WaitersHoldNothing(s, p, q);
    TaskLocksAreFree(s, q);
  }

  // The wait-for graph has no path of two edges, hence no cycle, in any reachable state.
  lemma NoDeadlock(s: Low, steps: seq<Step>, waiters: seq<Pid>)
    requires LowInv(s)
    requires forall i :: 0 <= i < |waiters| - 1 ==> Waits(LowRun(s, steps), waiters[i], waiters[i + 1])
    ensures |waiters| <= 2
  {
    InterleavingsAreSerial(s, steps);
    if |waiters| > 2 {
      HoldersDoNotWait(LowRun(s, steps), waiters[0], waiters[1], waiters[2]);
    }
  }

  // An idle service satisfies the invariant.
  lemma IdleInv(w: World)
    requires Inv(w)
    ensures LowInv(Low(w, map[], map[], map[]))
  {
  }

  // So whatever holds in every atomic run holds in every interleaved run, file safety included.
  lemma InterleavedVisibleHasFile(w: World, steps: seq<Step>, r: RecordingId)
    requires Start(w) && Visible(LowRun(Low(w, map[], map[], map[]), steps).w, r)
    ensures var end := LowRun(Low(w, map[], map[], map[]), steps).w;
            var row := end.db.recordings[r];
            row.key in end.fs.files && end.fs.files[row.key] == row.audio
  {
    var s := Low(w, map[], map[], map[]);
    StartInv(w);
    IdleInv(w);
    InterleavingsAreSerial(s, steps);
    VisibleHasFile(w, CommitOrder(s, steps), r);
  }

  // ---------- Every transaction can really be run ----------

  // One process is under way, with this event, and has come this far.
  ghost predicate Alone(s: Low, w: World, e: Event, stage: Stage) {
    && LowInv(s) && s.w == w && s.procs.Keys == {0}
    && s.procs[0].event == e && s.procs[0].stage == stage
  }

  function Idle(w: World): Low {
    Low(w, map[], map[], map[])
  }

  // A transaction on a recording that is there, at the current time, on what was handed out.
  predicate Startable(w: World, e: Event) {
    && IsTransaction(e) && Enabled(w, e) && (HasTime(e) ==> e.at == w.now)
    && TargetRecording(w, e).Some? && TargetRecording(w, e).value in w.db.recordings
    && (IsLeaseEvent(e) ==> e.lease in w.past.leases)
  }

  lemma {:induction false} LowRunAppend(s: Low, steps: seq<Step>, more: seq<Step>)
    ensures LowRun(s, steps + more) == LowRun(LowRun(s, steps), more)
    decreases |steps|
  {
    hide LowNext;
    if steps == [] {
      assert steps + more == more;
    } else {
      assert (steps + more)[1..] == steps[1..] + more;
      LowRunAppend(LowNext(s, steps[0]), steps[1..], more);
    }
  }

  lemma LowRunOne(s: Low, step: Step)
    ensures LowRun(s, [step]) == LowNext(s, step)
  {
    hide LowNext;
    assert [step][1..] == [];
    assert LowRun(LowNext(s, step), []) == LowNext(s, step);
  }

  lemma Begins(w: World, e: Event)
    requires Inv(w) && Startable(w, e)
    ensures var s := LowNext(Idle(w), Begin(0, e));
            Alone(s, w, e, Begun) && s.recordingLocks == map[]
            && s.procs[0].target == TargetRecording(w, e).value
            && s.procs[0].seen.upload == (if e.Resolve? then Get(w.fs.uploads, Some(e.call)) else None)
  {
    IdleInv(w);
    LowKept(Idle(w), Begin(0, e));
    hide Inv, LowInv;
  }

  lemma LocksRecording(s: Low, w: World, e: Event)
    requires Alone(s, w, e, Begun) && Startable(w, e) && s.recordingLocks == map[]
    requires s.procs[0].target == TargetRecording(w, e).value
    requires s.procs[0].seen.upload == (if e.Resolve? then Get(w.fs.uploads, Some(e.call)) else None)
    ensures Alone(LowNext(s, LockRecording(0)), w, e, HasRecording)
  {
    LowKept(s, LockRecording(0));
    hide LowInv;
  }

  lemma LocksTask(s: Low, w: World, e: Event)
    requires Alone(s, w, e, HasRecording)
    ensures Alone(LowNext(s, LockTask(0)), w, e, if e.Retry? then HasTask else Locked)
  {
    LowKept(s, LockTask(0));
    TaskLocksAreFree(s, 0);
    hide LowInv;
  }

  lemma LocksSuccessor(s: Low, w: World, e: Event)
    requires Alone(s, w, e, HasTask) && e.Retry?
    ensures Alone(LowNext(s, LockSuccessor(0)), w, e, Locked)
  {
    LowKept(s, LockSuccessor(0));
    TaskLocksAreFree(s, 0);
    hide LowInv;
  }

  lemma ReadsClock(s: Low, w: World, e: Event)
    requires Alone(s, w, e, Locked) && (HasTime(e) ==> e.at == w.now)
    ensures Alone(LowNext(s, ReadClock(0)), w, e, Ready)
  {
    LowKept(s, ReadClock(0));
    hide LowInv;
  }

  ghost function Unlocked(s: Low, w: World): set<TaskId>
    requires 0 in s.procs
  {
    set t | t in w.db.tasks && InCascade(w, s.procs[0], t) && t !in s.taskLocks
  }

  lemma LocksOneMore(s: Low, w: World, e: Event, t: TaskId)
    requires Alone(s, w, e, Ready) && t in Unlocked(s, w)
    ensures var s' := LowNext(s, LockCascade(0, t));
            Alone(s', w, e, Ready) && s'.procs == s.procs && Unlocked(s', w) == Unlocked(s, w) - {t}
  {
    LowKept(s, LockCascade(0, t));
    hide LowInv;
  }

  lemma {:induction false} LocksCascade(s: Low, w: World, e: Event, todo: set<TaskId>) returns (steps: seq<Step>)
    requires Alone(s, w, e, Ready) && todo == Unlocked(s, w)
    ensures Alone(LowRun(s, steps), w, e, Ready) && Unlocked(LowRun(s, steps), w) == {}
    decreases |todo|
  {
    hide LowNext, LowInv, InCascade;
    steps := [];
    if todo != {} {
      var t := Pick(todo);
      LocksOneMore(s, w, e, t);
      var s' := LowNext(s, LockCascade(0, t));
      var rest := LocksCascade(s', w, e, todo - {t});
      steps := [LockCascade(0, t)] + rest;
      LowRunOne(s, LockCascade(0, t));
      LowRunAppend(s, [LockCascade(0, t)], rest);
    }
  }

  lemma CommitIsFree(s: Low, w: World, e: Event)
    requires Alone(s, w, e, Ready) && Unlocked(s, w) == {} && Startable(w, e)
    ensures MayCommit(s, 0)
  {
    TaskLocksAreFree(s, 0);
    hide LowInv, Inv, Next;
    forall t | t in w.db.tasks && InCascade(w, s.procs[0], t)
      ensures t in s.taskLocks && s.taskLocks[t] == 0
    {
      assert t !in Unlocked(s, w);
    }
  }

  lemma CommitRuns(s: Low, w: World, e: Event)
    requires Alone(s, w, e, Ready) && Unlocked(s, w) == {} && Startable(w, e)
    ensures LowNext(s, Commit(0)).w == Next(w, e)
  {
    hide LowInv, Inv, Next, MayCommit, Committed;
    CommitIsFree(s, w, e);
    CommitIsSerial(s, 0);
  }

  // Nothing the locks do keeps a transaction from running: alone, it takes its locks one by one and
  // commits, with the effect the atomic machine gives it.
  lemma TransactionsRun(w: World, e: Event) returns (steps: seq<Step>)
    requires Inv(w) && Startable(w, e)
    ensures LowRun(Idle(w), steps).w == Next(w, e)
  {
    hide Inv, Next, LowNext, LowInv, Startable, Unlocked;
    Begins(w, e);
    var s := LowNext(Idle(w), Begin(0, e));
    steps := [Begin(0, e)];
    LowRunOne(Idle(w), Begin(0, e));
    HasTimeOf(w, e);
    LocksRecording(s, w, e);
    s, steps := StepTaken(w, s, steps, LockRecording(0));
    LocksTask(s, w, e);
    s, steps := StepTaken(w, s, steps, LockTask(0));
    if e.Retry? {
      LocksSuccessor(s, w, e);
      s, steps := StepTaken(w, s, steps, LockSuccessor(0));
    }
    ReadsClock(s, w, e);
    s, steps := StepTaken(w, s, steps, ReadClock(0));
    var cascade := LocksCascade(s, w, e, Unlocked(s, w));
    LowRunAppend(Idle(w), steps, cascade);
    s, steps := LowRun(s, cascade), steps + cascade;
    CommitRuns(s, w, e);
    s, steps := StepTaken(w, s, steps, Commit(0));
  }

  lemma StepTaken(w: World, s: Low, steps: seq<Step>, step: Step) returns (s': Low, longer: seq<Step>)
    requires s == LowRun(Idle(w), steps)
    ensures longer == steps + [step] && s' == LowNext(s, step) == LowRun(Idle(w), longer)
  {
    s', longer := LowNext(s, step), steps + [step];
    LowRunOne(s, step);
    LowRunAppend(Idle(w), steps, [step]);
  }

  lemma HasTimeOf(w: World, e: Event)
    requires Startable(w, e)
    ensures HasTime(e) ==> e.at == w.now
  {
  }
}
