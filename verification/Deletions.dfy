/** Deleting: mark, unlink, then remove the row; every step may be the last one before a crash. */
module Deletions {
  import opened Domain
  import opened System
  import opened Shapes
  import opened Rows
  import opened Files
  import opened Safety
  import S = Store

  datatype Answer = NotFound | Unavailable | Interrupted | Removed

  lemma RemoveSucceeds(w: World, call: CallId)
    requires Inv(w) && call in w.fs.deletions && w.fs.deletions[call].unlinked
    ensures var d := w.fs.deletions[call];
            && Inv(Next(w, Remove(call)))
            && d.key !in w.fs.files
            && Next(w, Remove(call)) == w.(
              db := if d.recording in w.db.recordings then Without(w.db, d.recording) else w.db,
              fs := w.fs.(deletions := w.fs.deletions - {call}))
            && forall t :: t in Next(w, Remove(call)).db.tasks ==>
                 Next(w, Remove(call)).db.tasks[t].recording != d.recording
  {
    var e := Remove(call);
    Kept(w, e);
    assert DeletionOk(w, call);
    if w.fs.deletions[call].recording in w.db.recordings {
      RecheckNeverFires(w, e);
    }
    RemoveShape(w, e);
    forall t | t in Next(w, e).db.tasks
      ensures Next(w, e).db.tasks[t].recording != w.fs.deletions[call].recording
    {
      assert RowInv(Next(w, e), t);
    }
  }

  lemma NextDeletionStep(w: World, e: Event)
    requires Inv(w) && (e.Unlink? || e.CrashDeletion?)
    ensures Inv(Next(w, e)) && Next(w, e) == DeletionStep(w, e)
  {
    Kept(w, e);
  }

  class Deletions {
    const store: S.Store

    constructor (store: S.Store)
      ensures this.store == store
    {
      this.store := store;
    }

    // First transaction: the deletion intent is committed before anything is cleaned up.
    method MarkDeleted(ghost call: CallId, r: RecordingId, when: Time) returns (key: Option<Key>)
      requires store.Valid() && call !in store.deletions
      modifies store
      ensures store.Valid() && store.View() == Next(old(store.View()), Mark(call, r, when))
      ensures key.Some? <==> r in old(store.recordings)
      ensures key.Some? ==>
                && key.value == old(store.recordings)[r].key
                && store.recordings.Keys == old(store.recordings).Keys
                && store.recordings[r] == old(store.recordings)[r].(
                     deletedAt := Some(old(store.recordings)[r].deletedAt.GetOr(when)))
                && call in store.deletions && store.deletions[call] == Deletion(r, key.value, false)
      ensures key.None? ==> store.View() == old(store.View())
    {
      hide Next, Inv;
      MarkShape(store.View(), Mark(call, r, when));
      Kept(store.View(), Mark(call, r, when));
      if r !in store.recordings {
        return None;
      }
      var row := store.recordings[r];
      if row.deletedAt.None? {
        row := row.(deletedAt := Some(when));
      }
      store.recordings := store.recordings[r := row];
      store.deletions := store.deletions[call := Deletion(r, row.key, false)];
      return Some(row.key);
    }

    method UnlinkFile(ghost call: CallId, key: Key) returns (removed: bool)
      requires store.Valid() && call in store.deletions
      requires !store.deletions[call].unlinked && store.deletions[call].key == key
      modifies store
      ensures store.Valid() && store.View() == Next(old(store.View()), Unlink(call, removed))
      ensures removed ==>
                && call in store.deletions && key !in store.files
                && store.deletions[call] == old(store.deletions)[call].(unlinked := true)
      ensures store.recordings == old(store.recordings)
    {
      removed := *;
      hide Next, Inv;
      NextDeletionStep(store.View(), Unlink(call, removed));
      if removed {
        store.files := store.files - {key};
        store.deletions := store.deletions[call := store.deletions[call].(unlinked := true)];
      } else {
        store.deletions := store.deletions - {call};
      }
    }

    // Second transaction, with its recheck of mark and key.
    method RemoveRow(ghost call: CallId, r: RecordingId, key: Key)
      requires store.Valid() && call in store.deletions && store.deletions[call] == Deletion(r, key, true)
      modifies store
      ensures store.Valid() && store.View() == Next(old(store.View()), Remove(call))
      ensures r !in store.recordings && key !in store.files
      ensures forall t :: t in store.tasks ==> store.tasks[t].recording != r
    {
      hide Next, Inv;
      ghost var w := store.View();
      RemoveSucceeds(w, call);
      if r in store.recordings {
        RecheckNeverFires(w, Remove(call));
      }
      store.deletions := store.deletions - {call};
      if r !in store.recordings {
        return;
      }
      if store.recordings[r].deletedAt.None? || store.recordings[r].key != key {
        assert false;
      } else {
        store.recordings := store.recordings - {r};
        store.tasks := map t | t in store.tasks && store.tasks[t].recording != r :: store.tasks[t];
      }
    }

    // The whole request. 204 means row, tasks and file are gone, whoever removed them; any other
    // answer for an existing recording leaves it marked, so that it can be asked for again, and is
    // only given after a fault of the disk or the database.
    method DeleteRecording(ghost call: CallId, r: RecordingId, when: Time)
      returns (answer: Answer, ghost trace: seq<Event>, ghost marked: World, ghost faults: bool)
      requires store.Valid() && call !in store.deletions
      modifies store
      ensures store.Valid() && store.View() == Run(old(store.View()), trace)
      ensures answer.NotFound? <==> r !in old(store.recordings)
      ensures answer.NotFound? ==> store.View() == old(store.View())
      ensures marked == Next(old(store.View()), Mark(call, r, when))
      ensures !answer.NotFound? ==>
                && r in marked.db.recordings && marked.db.recordings[r].deletedAt.Some?
                && FrozenOrGone(marked, store.View(), r)
      ensures !faults ==> (answer.Removed? <==> r in old(store.recordings))
      ensures answer.Removed? ==>
                && r !in store.recordings && old(store.recordings)[r].key !in store.files
                && forall t :: t in store.tasks ==> store.tasks[t].recording != r
    {
      hide Next, Inv, Run, FrozenOrGone;
      ghost var mine := S.Mine(Some(call), {}, {}, {}, {});
      ghost var start := store.View();
      trace := [];
      RunNothing(start);
      var key := MarkDeleted(call, r, when);
      if key.None? {
        return NotFound, trace, store.View(), false;
      }
      S.Extend(start, [], Mark(call, r, when));
      trace := [] + [Mark(call, r, when)];
      marked := store.View();
      ghost var rest: seq<Event> := [];
      RunNothing(marked);
      rest := Pause(mine, marked, rest);
      var removed := UnlinkFile(call, key.value);
      S.Extend(marked, rest, Unlink(call, removed));
      rest := rest + [Unlink(call, removed)];
      if removed {
        rest := Pause(mine, marked, rest);
        var fails: bool := *;
        if !fails {
          RemoveRow(call, r, key.value);
          S.Extend(marked, rest, Remove(call));
          rest := rest + [Remove(call)];
        }
        answer := if fails then Answer.Interrupted else Removed;
        faults := fails;
      } else {
        answer := Answer.Unavailable;
        faults := true;
      }
      DeletionFreezes(marked, rest, r);
      RunAppend(start, trace, rest);
      trace := trace + rest;
    }

    method Pause(ghost mine: S.Mine, ghost start: World, ghost trace: seq<Event>) returns (ghost longer: seq<Event>)
      requires store.Valid() && store.View() == Run(start, trace)
      requires mine.tokens == {} && mine.recordings == {} && mine.tasks == {}
      modifies store
      ensures store.Valid() && store.View() == Run(start, longer)
      ensures S.SameCall(old(store.View()), store.View(), mine.call)
    {
      hide Run, Inv, Next;
      ghost var es := store.Interfere(mine);
      RunAppend(start, trace, es);
      longer := trace + es;
    }
  }
}
