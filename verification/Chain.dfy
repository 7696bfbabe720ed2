/** Manual retries: each recording's tasks form one chain 1..n of which only the last may be open. */
module Chain {
  import opened Domain
  import opened System
  import opened Shapes
  import opened Rows
  import opened Fencing

  predicate Linked(tasks: map<TaskId, Task>, t: TaskId)
    requires t in tasks
  {
    var row := tasks[t];
    && 1 <= row.attempt
    && (row.attempt == 1 <==> row.retryOf.None?)
    && (row.retryOf.Some? ==>
          var s := row.retryOf.value;
          && s in tasks && tasks[s].recording == row.recording
          && tasks[s].attempt + 1 == row.attempt && tasks[s].status.Failed?)
  }

  // The two unique constraints on tasks.
  predicate UniqueAttempts(tasks: map<TaskId, Task>) {
    forall t, u ::
      (t in tasks && u in tasks && tasks[t].recording == tasks[u].recording
       && tasks[t].attempt == tasks[u].attempt) ==> t == u
  }

  predicate UniqueSuccessors(tasks: map<TaskId, Task>) {
    forall t, u ::
      (t in tasks && u in tasks && tasks[t].retryOf.Some? && tasks[t].retryOf == tasks[u].retryOf) ==> t == u
  }

  predicate Chained(tasks: map<TaskId, Task>) {
    && (forall t :: t in tasks ==> Linked(tasks, t))
    && UniqueAttempts(tasks) && UniqueSuccessors(tasks)
  }

  ghost predicate ChainInv(w: World) {
    && Chained(w.db.tasks)
    && (forall r :: r in w.db.recordings ==>
          r in w.past.firsts && IsFirst(w.db.tasks, r, w.past.firsts[r]))
  }

  // ---------- The chain is kept ----------

  lemma RewriteKeepsChain(tasks: map<TaskId, Task>, t: TaskId, row: Task)
    requires Chained(tasks) && t in tasks
    requires row.recording == tasks[t].recording && row.attempt == tasks[t].attempt
    requires row.retryOf == tasks[t].retryOf && !tasks[t].status.Failed?
    ensures Chained(tasks[t := row])
  {
    var tasks' := tasks[t := row];
    forall u | u in tasks' ensures Linked(tasks', u) {
      assert Linked(tasks, u);
    }
    RewriteKeepsUniqueness(tasks, t, row);
  }

  lemma RewriteKeepsUniqueness(tasks: map<TaskId, Task>, t: TaskId, row: Task)
    requires UniqueAttempts(tasks) && UniqueSuccessors(tasks) && t in tasks
    requires row.recording == tasks[t].recording && row.attempt == tasks[t].attempt
    requires row.retryOf == tasks[t].retryOf
    ensures UniqueAttempts(tasks[t := row]) && UniqueSuccessors(tasks[t := row])
  {
  }

  // A row that follows `row.retryOf`, which has no successor yet.
  ghost predicate Prolongs(tasks: map<TaskId, Task>, t: TaskId, row: Task) {
    && t !in tasks && row.retryOf.Some?
    && row.retryOf.value in tasks && tasks[row.retryOf.value].status.Failed?
    && row.recording == tasks[row.retryOf.value].recording
    && row.attempt == tasks[row.retryOf.value].attempt + 1
    && (forall s :: !HasSuccessor(tasks, row.retryOf.value, s))
  }

  lemma NewestIsUnmatched(tasks: map<TaskId, Task>, t: TaskId, row: Task, u: TaskId)
    requires Chained(tasks) && Prolongs(tasks, t, row) && u in tasks
    ensures u != t && tasks[u].retryOf != row.retryOf
    ensures tasks[u].recording == row.recording ==> tasks[u].attempt != row.attempt
  {
    assert Linked(tasks, u) && Linked(tasks, row.retryOf.value);
    assert !HasSuccessor(tasks, row.retryOf.value, u);
  }

  lemma GrowthKeepsLinks(tasks: map<TaskId, Task>, t: TaskId, row: Task)
    requires Chained(tasks) && t !in tasks
    ensures forall u :: u in tasks ==> Linked(tasks[t := row], u)
  {
    forall u | u in tasks ensures Linked(tasks[t := row], u) {
      assert Linked(tasks, u);
    }
  }

  lemma AppendKeepsChain(tasks: map<TaskId, Task>, t: TaskId, row: Task)
    requires Chained(tasks) && Prolongs(tasks, t, row)
    ensures Chained(tasks[t := row])
  {
    var tasks' := tasks[t := row];
    GrowthKeepsLinks(tasks, t, row);
    assert Linked(tasks', t) by {
      assert Linked(tasks, row.retryOf.value);
    }
    assert UniqueAttempts(tasks') && UniqueSuccessors(tasks') by {
      forall u | u in tasks
        ensures tasks[u].retryOf != row.retryOf
        ensures tasks[u].recording == row.recording ==> tasks[u].attempt != row.attempt
      {
        NewestIsUnmatched(tasks, t, row, u);
      }
    }
  }

  lemma BirthKeepsChain(tasks: map<TaskId, Task>, t: TaskId, row: Task)
    requires Chained(tasks) && t !in tasks && row.retryOf.None? && row.attempt == 1
    requires forall u :: u in tasks ==> tasks[u].recording != row.recording
    ensures Chained(tasks[t := row])
  {
    GrowthKeepsLinks(tasks, t, row);
    assert Linked(tasks[t := row], t);
    assert UniqueAttempts(tasks[t := row]);
    assert UniqueSuccessors(tasks[t := row]);
  }

  lemma CascadeKeepsChain(db: Tables, r: RecordingId)
    requires Chained(db.tasks)
    ensures Chained(Without(db, r).tasks)
  {
    forall t | t in Without(db, r).tasks ensures Linked(Without(db, r).tasks, t) {
      assert Linked(db.tasks, t);
    }
  }

  lemma WrittenKeepsChain(w: World, e: Event)
    requires RowsInv(w) && ChainInv(w) && Granted(w, e)
    ensures ChainInv(Written(w, e))
  {
    RewriteKeepsChain(w.db.tasks, QueueTask(e), GrantedRow(w, e));
    forall r | r in w.db.recordings ensures IsFirst(Written(w, e).db.tasks, r, w.past.firsts[r]) {
      assert IsFirst(w.db.tasks, r, w.past.firsts[r]);
    }
  }

  lemma RetriedKeepsChain(w: World, e: Event)
    requires RowsInv(w) && ChainInv(w) && Succeeds(w, e)
    ensures ChainInv(Retried(w, e))
  {
    assert RowInv(w, e.source);
    assert e.created !in w.db.tasks;
    AppendKeepsChain(w.db.tasks, e.created, Retried(w, e).db.tasks[e.created]);
    forall r | r in w.db.recordings ensures IsFirst(Retried(w, e).db.tasks, r, w.past.firsts[r]) {
      assert IsFirst(w.db.tasks, r, w.past.firsts[r]);
    }
  }

  lemma InsertedKeepsChain(w: World, e: Event)
    requires RowsInv(w) && ChainInv(w) && Inserts(w, e)
    ensures ChainInv(Inserted(w, e))
  {
    var w' := Inserted(w, e);
    forall u | u in w.db.tasks ensures w.db.tasks[u].recording != e.recording && u != e.task {
      assert RowInv(w, u);
    }
    BirthKeepsChain(w.db.tasks, e.task, w'.db.tasks[e.task]);
    forall r | r in w'.db.recordings
      ensures r in w'.past.firsts && IsFirst(w'.db.tasks, r, w'.past.firsts[r])
    {
      if r != e.recording {
        assert IsFirst(w.db.tasks, r, w.past.firsts[r]);
      }
    }
  }

  lemma MarkedKeepsChain(w: World, e: Event)
    requires ChainInv(w) && e.Mark? && e.recording in w.db.recordings
    ensures ChainInv(Marked(w, e))
  {
  }

  lemma ChainKept(w: World, e: Event)
    requires RowsInv(w) && ChainInv(w)
    ensures ChainInv(Next(w, e))
  {
    if IsQueueEvent(e) {
      QueueShape(w, e);
      if Granted(w, e) {
        WrittenKeepsChain(w, e);
      }
    } else if e.Retry? {
      RetryShape(w, e);
      if Succeeds(w, e) {
        RetriedKeepsChain(w, e);
      }
    } else if e.Mark? {
      MarkShape(w, e);
      if e.recording in w.db.recordings {
        MarkedKeepsChain(w, e);
      }
    } else if e.Remove? {
      RemoveShape(w, e);
      if Removes(w, e) {
        CascadeKeepsChain(w.db, w.fs.deletions[e.call].recording);
        forall r | r in Next(w, e).db.recordings
          ensures IsFirst(Next(w, e).db.tasks, r, w.past.firsts[r])
        {
          assert IsFirst(w.db.tasks, r, w.past.firsts[r]);
        }
      }
    } else if e.Resolve? {
      ResolveShape(w, e);
    } else if Inserts(w, e) {
      InsertShape(w, e);
      InsertedKeepsChain(w, e);
    } else {
      OtherShape(w, e);
    }
  }

  lemma {:induction false} ChainAlways(w: World, es: seq<Event>)
    requires RowsInv(w) && ChainInv(w)
    ensures RowsInv(Run(w, es)) && ChainInv(Run(w, es))
    decreases |es|
  {
    if es != [] {
      RowsKept(w, es[0]);
      ChainKept(w, es[0]);
      ChainAlways(Next(w, es[0]), es[1..]);
    }
  }

  // ---------- What the chain means ----------

  // Attempts are numbered contiguously, and every attempt but the last has failed.
  lemma {:induction false} Ancestor(tasks: map<TaskId, Task>, u: TaskId, k: int) returns (t: TaskId)
    requires Chained(tasks) && u in tasks && 1 <= k < tasks[u].attempt
    ensures t in tasks && tasks[t].recording == tasks[u].recording && tasks[t].attempt == k
    ensures tasks[t].status.Failed?
    decreases tasks[u].attempt
  {
    assert Linked(tasks, u);
    t := tasks[u].retryOf.value;
    if k < tasks[t].attempt {
      t := Ancestor(tasks, t, k);
    }
  }

  // The next attempt is the unique successor of the one before.
  lemma NextAttemptIsSuccessor(tasks: map<TaskId, Task>, t: TaskId, u: TaskId)
    requires Chained(tasks) && t in tasks && u in tasks
    requires tasks[t].recording == tasks[u].recording
    ensures tasks[u].attempt == tasks[t].attempt + 1 <==> tasks[u].retryOf == Some(t)
  {
    assert Linked(tasks, u) && Linked(tasks, t);
    if tasks[u].attempt == tasks[t].attempt + 1 {
      var s := tasks[u].retryOf.value;
      assert tasks[s].attempt == tasks[t].attempt;
    }
  }

  lemma EarlierAttemptsFailed(tasks: map<TaskId, Task>, t: TaskId, u: TaskId)
    requires Chained(tasks) && t in tasks && u in tasks
    requires tasks[t].recording == tasks[u].recording && tasks[t].attempt < tasks[u].attempt
    ensures tasks[t].status.Failed?
  {
    assert Linked(tasks, t);
    var s := Ancestor(tasks, u, tasks[t].attempt);
    assert s == t;
  }

  // At most one unfinished task per recording.
  lemma OneOpenTask(tasks: map<TaskId, Task>, t: TaskId, u: TaskId)
    requires Chained(tasks) && t in tasks && u in tasks
    requires tasks[t].recording == tasks[u].recording
    requires !Terminal(tasks[t].status) && !Terminal(tasks[u].status)
    ensures t == u
  {
    if tasks[t].attempt < tasks[u].attempt {
      EarlierAttemptsFailed(tasks, t, u);
    } else if tasks[u].attempt < tasks[t].attempt {
      EarlierAttemptsFailed(tasks, u, t);
    }
  }

  // At most one issued token per recording passes the write gate at any time.
  lemma OneOwnerPerRecording(w: World, es: seq<Event>, one: Lease, other: Lease, at: Time)
    requires RowsInv(w) && ChainInv(w)
    requires one.recording == other.recording
    requires Owned(Run(w, es), one, at) && Owned(Run(w, es), other, at)
    ensures one.task == other.task && one.token == other.token
  {
    ChainAlways(w, es);
    OneOpenTask(Run(w, es).db.tasks, one.task, other.task);
  }

  // ---------- Retrying twice ----------

  lemma SuccessorStep(w: World, e: Event, source: TaskId, s: TaskId)
    requires RowsInv(w) && ChainInv(w) && HasSuccessor(w.db.tasks, source, s)
    ensures source in w.past.usedTasks && s in w.past.usedTasks
    ensures source in Next(w, e).db.tasks ==> HasSuccessor(Next(w, e).db.tasks, source, s)
    ensures source !in Next(w, e).db.tasks ==> s !in Next(w, e).db.tasks
  {
    RowsKept(w, e);
    assert Linked(w.db.tasks, s) && RowInv(w, s) && RowInv(w, source);
    SuccessorMoves(w, e, Next(w, e), source, s);
  }

  lemma SuccessorMoves(w: World, e: Event, w': World, source: TaskId, s: TaskId)
    requires HasSuccessor(w.db.tasks, source, s) && source in w.db.tasks
    requires w.db.tasks[s].recording == w.db.tasks[source].recording
    requires RowStep(w, e, w', s) && RowStep(w, e, w', source)
    ensures source in w'.db.tasks ==> HasSuccessor(w'.db.tasks, source, s)
    ensures source !in w'.db.tasks ==> s !in w'.db.tasks
  {
  }

  lemma {:induction false} SuccessorStays(w: World, es: seq<Event>, source: TaskId, s: TaskId)
    requires RowsInv(w) && ChainInv(w) && HasSuccessor(w.db.tasks, source, s)
    ensures source in Run(w, es).db.tasks ==> HasSuccessor(Run(w, es).db.tasks, source, s)
    ensures source !in Run(w, es).db.tasks ==> s !in Run(w, es).db.tasks
    decreases |es|
  {
    if es == [] {
      assert Linked(w.db.tasks, s);
    } else {
      var w1 := Next(w, es[0]);
      SuccessorStep(w, es[0], source, s);
      RowsKept(w, es[0]);
      ChainKept(w, es[0]);
      if source in w1.db.tasks {
        SuccessorStays(w1, es[1..], source, s);
      } else {
        BothGone(w1, es[1..], source, s);
      }
    }
  }

  lemma {:induction false} BothGone(w: World, es: seq<Event>, source: TaskId, s: TaskId)
    requires RowsInv(w) && source in w.past.usedTasks && s in w.past.usedTasks
    requires source !in w.db.tasks && s !in w.db.tasks
    ensures source !in Run(w, es).db.tasks && s !in Run(w, es).db.tasks
    decreases |es|
  {
    if es != [] {
      RowsKept(w, es[0]);
      assert RowStep(w, es[0], Next(w, es[0]), s) && RowStep(w, es[0], Next(w, es[0]), source);
      BothGone(Next(w, es[0]), es[1..], source, s);
    }
  }

  // However often a task is retried and whatever happens in between, the first successor is the
  // only one, and a repeated request inserts nothing.
  lemma RetryIsIdempotent(w: World, e: Event, es: seq<Event>, again: Event)
    requires RowsInv(w) && ChainInv(w) && Succeeds(w, e)
    requires again.Retry? && again.source == e.source
    ensures var end := Run(Next(w, e), es);
            && Next(end, again).db == end.db
            && (e.source in end.db.tasks ==> Successor(end.db.tasks, e.source) == Some(e.created))
  {
    var w1 := Next(w, e);
    RetryShape(w, e);
    RowsKept(w, e);
    ChainKept(w, e);
    assert RowInv(w, e.source);
    assert HasSuccessor(w1.db.tasks, e.source, e.created);
    SuccessorStays(w1, es, e.source, e.created);
    ChainAlways(w1, es);
    var end := Run(w1, es);
    RetryShape(end, again);
  }
}
