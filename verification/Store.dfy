/** The database and the audio directory as one mutable object, and the parties that share it. */
module Store {
  import opened Domain
  import opened System
  import opened Shapes
  import opened Safety

  // What a caller has to itself and nobody else uses: its call, the UUIDs and tokens it has
  // generated, and the issued tokens of the leases it holds.
  datatype Mine = Mine(
    call: Option<CallId>,
    tokens: set<Token>,
    recordings: set<RecordingId>,
    tasks: set<TaskId>,
    held: set<Token>)

  predicate Avoids(e: Event, mine: Mine) {
    && (CallOf(e).Some? ==> CallOf(e) != mine.call)
    && (e.ClaimTask? ==> e.token !in mine.tokens)
    && (IsLeaseEvent(e) ==> e.lease.token !in mine.held)
    && (e.Retry? ==> e.created !in mine.tasks)
    && (e.InsertRows? || e.LandLate? ==> e.recording !in mine.recordings && e.task !in mine.tasks)
  }

  predicate AllAvoid(es: seq<Event>, mine: Mine) {
    forall i :: 0 <= i < |es| ==> Avoids(es[i], mine)
  }

  predicate Unused(w: World, mine: Mine) {
    mine.tokens !! w.past.tokens && mine.recordings !! w.past.usedRecordings && mine.tasks !! w.past.usedTasks
  }

  predicate SameCall(w: World, w': World, c: Option<CallId>) {
    Get(w'.fs.uploads, c) == Get(w.fs.uploads, c) && Get(w'.fs.deletions, c) == Get(w.fs.deletions, c)
  }

  lemma StepAvoids(w: World, e: Event, mine: Mine)
    requires Unused(w, mine) && Avoids(e, mine)
    ensures Unused(Next(w, e), mine) && SameCall(w, Next(w, e), mine.call)
  {
    if mine.call.Some? {
      CallUndisturbed(w, e, mine.call.value);
    }
    if IsQueueEvent(e) {
      QueueShape(w, e);
    } else if e.Retry? {
      RetryShape(w, e);
    } else if e.Mark? {
      MarkShape(w, e);
    } else if e.Remove? {
      RemoveShape(w, e);
    } else if e.Resolve? {
      ResolveShape(w, e);
    } else if !Inserts(w, e) {
      OtherShape(w, e);
    }
  }

  // Whatever the others do, what is mine stays mine and my call stays where it is.
  lemma {:induction false} RunAvoids(w: World, es: seq<Event>, mine: Mine)
    requires Inv(w) && Unused(w, mine) && AllAvoid(es, mine)
    ensures Inv(Run(w, es)) && Unused(Run(w, es), mine) && SameCall(w, Run(w, es), mine.call)
    ensures w.now <= Run(w, es).now
    decreases |es|
  {
    if es != [] {
      Kept(w, es[0]);
      StepAvoids(w, es[0], mine);
      RunAvoids(Next(w, es[0]), es[1..], mine);
    }
  }

  lemma Extend(w: World, es: seq<Event>, e: Event)
    ensures Run(w, es + [e]) == Next(Run(w, es), e)
  {
    RunAppend(w, es, [e]);
    var end := Run(w, es);
    assert [e][1..] == [];
    assert Run(Next(end, e), []) == Next(end, e);
  }

  class Store {
    const cfg: Config
    var clock: Time
    var recordings: map<RecordingId, Recording>
    var tasks: map<TaskId, Task>
    var files: map<Key, Audio>
    // Bookkeeping no program reads.
    ghost var uploads: map<CallId, Upload>
    ghost var deletions: map<CallId, Deletion>
    ghost var owners: map<Key, RecordingId>
    ghost var savers: map<Key, CallId>
    ghost var past: Past

    ghost function View(): World
      reads this
    {
      World(cfg, clock, Tables(recordings, tasks), Calls(files, uploads, deletions, owners, savers), past)
    }

    ghost predicate Valid()
      reads this
    {
      Inv(View())
    }

    constructor (cfg: Config, clock: Time)
      requires ValidConfig(cfg)
      ensures Start(View()) && Valid() && this.cfg == cfg && this.clock == clock
    {
      this.cfg, this.clock := cfg, clock;
      recordings, tasks, files := map[], map[], map[];
      uploads, deletions, owners, savers := map[], map[], map[], map[];
      past := Past(map[], {}, {}, map[], map[], {}, {});
      new;
      StartInv(View());
    }

    // Between two transactions of one caller, everybody else may do anything, for any time. The
    // body does nothing; callers only know the contract, and so must cope with every run.
    method Interfere(ghost mine: Mine) returns (ghost es: seq<Event>)
      requires Valid() && Unused(View(), mine)
      modifies this
      ensures Valid() && Unused(View(), mine) && SameCall(old(View()), View(), mine.call)
      ensures AllAvoid(es, mine) && View() == Run(old(View()), es)
    {
      es := [];
    }
  }
}
