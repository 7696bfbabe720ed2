/** Manual retry: one direct successor per failed task, however often it is asked for. */
module Retries {
  import opened Domain
  import opened TaskRow
  import opened System
  import opened Shapes
  import opened Rows
  import opened Chain
  import opened Safety
  import S = Store

  datatype Answer = NotFound | NotRetryable | Successor(task: TaskId, status: Status, attempt: int, isNew: bool)

  class Retries {
    const store: S.Store

    constructor (store: S.Store)
      ensures this.store == store
    {
      this.store := store;
    }

    method RetryTask(source: TaskId, created: TaskId) returns (answer: Answer)
      requires store.Valid() && created !in store.past.usedTasks
      modifies store
      ensures store.Valid() && store.View() == Next(old(store.View()), Retry(source, created, store.clock))
      ensures answer.NotFound? <==>
              !(source in old(store.tasks) && Visible(old(store.View()), old(store.tasks)[source].recording))
      ensures answer.NotRetryable? ==> !old(store.tasks)[source].status.Failed?
      ensures answer.Successor? ==>
                && source in old(store.tasks) && old(store.tasks)[source].status.Failed?
                && HasSuccessor(store.tasks, source, answer.task)
                && store.tasks[answer.task].status == answer.status
                && answer.attempt == store.tasks[answer.task].attempt == old(store.tasks)[source].attempt + 1
                && (answer.isNew <==> Succeeds(old(store.View()), Retry(source, created, store.clock)))
                && (answer.isNew ==>
                      && answer.task == created && answer.status.Pending?
                      && store.tasks == old(store.tasks)[created := NewTask(
                           old(store.tasks)[source].recording, answer.attempt, Some(source), store.clock)])
                && (!answer.isNew ==> store.tasks == old(store.tasks))
    {
      hide Next, Inv;
      ghost var w := store.View();
      ghost var e := Retry(source, created, store.clock);
      RetryShape(w, e);
      Kept(w, e);
      KnownSource(w, source);
      if source !in store.tasks {
        Note(source);
        return NotFound;
      }
      var recording := store.tasks[source].recording;
      if recording !in store.recordings || store.recordings[recording].deletedAt.Some? {
        Note(source);
        return NotFound;
      }
      if store.tasks[source].status != Failed {
        Note(source);
        return NotRetryable;
      }
      if s :| s in store.tasks && store.tasks[s].retryOf == Some(source) {
        SuccessorIs(w, source, s);
        Note(source);
        return Successor(s, store.tasks[s].status, store.tasks[s].attempt, false);
      } else {
        assert forall s :: !HasSuccessor(store.tasks, source, s);
        var attempt := store.tasks[source].attempt + 1;
        Append(source, created, recording, attempt);
        return Successor(created, Pending, attempt, true);
      }
    }

    method Append(source: TaskId, created: TaskId, recording: RecordingId, attempt: int)
      modifies store
      ensures store.View() == old(store.View()).(
        db := Tables(store.recordings,
          old(store.tasks)[created := NewTask(recording, attempt, Some(source), store.clock)]),
        past := old(store.past).(
          homes := old(store.past).homes[created := recording],
          usedTasks := old(store.past).usedTasks + {created},
          latest := old(store.past).latest[recording := store.clock]))
      ensures store.recordings == old(store.recordings)
    {
      store.tasks := store.tasks[created := NewTask(recording, attempt, Some(source), store.clock)];
      store.past := store.past.(
        homes := store.past.homes[created := recording],
        usedTasks := store.past.usedTasks + {created},
        latest := store.past.latest[recording := store.clock]);
    }

    // The clock reading stays with the locked recording.
    ghost method Note(source: TaskId)
      modifies store`past
      ensures store.View() == (if source in old(store.past.homes)
                               then Stamped(old(store.View()), old(store.past.homes)[source], store.clock)
                               else old(store.View()))
    {
      if source in store.past.homes && store.past.homes[source] in store.recordings {
        store.past := store.past.(latest := store.past.latest[store.past.homes[source] := store.clock]);
      }
    }
  }

  lemma KnownSource(w: World, source: TaskId)
    requires Inv(w)
    ensures source in w.past.homes ==> TimeOk(w, w.past.homes[source], w.now)
    ensures source in w.db.tasks ==> source in w.past.homes && w.past.homes[source] == w.db.tasks[source].recording
  {
    if source in w.db.tasks {
      assert RowInv(w, source);
    }
  }

  lemma SuccessorIs(w: World, source: TaskId, s: TaskId)
    requires Inv(w) && HasSuccessor(w.db.tasks, source, s)
    ensures System.Successor(w.db.tasks, source) == Some(s)
    ensures source in w.db.tasks ==> w.db.tasks[s].attempt == w.db.tasks[source].attempt + 1
  {
    assert Linked(w.db.tasks, s);
  }
}
