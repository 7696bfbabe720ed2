/** The worker: how it executes a claimed task, how many it runs at once, and what it cleans up. */
module Workers {
  import opened Domain
  import opened System
  import opened Shapes
  import opened Rows
  import opened Fencing
  import opened History
  import opened Transcripts
  import opened Safety
  import opened Ordering
  import opened Heartbeats
  import opened Discipline
  import Q = Queue
  import D = Deletions
  import S = Store

  lemma Growth(w: World, es: seq<Event>)
    requires Inv(w)
    ensures Inv(Run(w, es))
    ensures w.past.leases <= Run(w, es).past.leases && w.past.tokens <= Run(w, es).past.tokens
    ensures w.past.usedRecordings <= Run(w, es).past.usedRecordings
  {
    Always(w, es);
    PastGrows(w, es);
  }

  lemma {:induction false} RecordingStaysGone(w: World, es: seq<Event>, r: RecordingId)
    requires Inv(w) && r in w.past.usedRecordings && r !in w.db.recordings
    ensures r in Run(w, es).past.usedRecordings && r !in Run(w, es).db.recordings
    decreases |es|
  {
    if es != [] {
      Kept(w, es[0]);
      RecordingStaysGone(Next(w, es[0]), es[1..], r);
    }
  }

  // There is always a call id nobody uses.
  lemma {:induction false} UnusedId(s: set<int>) returns (x: int)
    ensures forall y :: y in s ==> y < x
    decreases |s|
  {
    x := 0;
    if s != {} {
      var y := Pick(s);
      var z := UnusedId(s - {y});
      x := if y < z then z else y + 1;
      assert forall v :: v in s ==> v == y || v in s - {y};
    }
  }

  // What one asks for and gets, or the failure it raises.
  datatype Reply<T> = Given(value: T) | Raised(failure: Failure)

  datatype Presence = Present | Missing | Unreadable

  // The disk, speech recognition and the language model: whatever they answer, noted for the
  // execution that asks.
  class Providers {
    ghost var told: Sources

    constructor ()
    {
      told := Sources({}, {}, {}, {});
    }

    // A new execution has been told nothing.
    ghost method Forget()
      modifies this
      ensures told == Sources({}, {}, {}, {})
    {
      told := Sources({}, {}, {}, {});
    }

    method Exists(store: S.Store, key: Key) returns (there: Presence)
      modifies this
      ensures there.Present? ==> key in store.files && told == old(told).(found := old(told).found + {key})
      ensures there.Missing? ==> key !in store.files && told == old(told).(trouble := old(told).trouble + {AUDIO_MISSING})
      ensures there.Unreadable? ==> told == old(told).(trouble := old(told).trouble + {STORAGE_UNAVAILABLE})
    {
      var unreadable: bool := *;
      there := if unreadable then Unreadable else if key in store.files then Present else Missing;
      match there
      case Present => told := told.(found := told.found + {key});
      case Missing => told := told.(trouble := told.trouble + {AUDIO_MISSING});
      case Unreadable => told := told.(trouble := told.trouble + {STORAGE_UNAVAILABLE});
    }

    method Listen() returns (text: Reply<string>)
      modifies this
      ensures text.Given? ==> told == old(told).(heard := old(told).heard + {text.value})
      ensures text.Raised? ==> told == old(told).(trouble := old(told).trouble + {text.failure})
    {
      text := *;
      match text
      case Given(value) => told := told.(heard := told.heard + {value});
      case Raised(failure) => told := told.(trouble := told.trouble + {failure});
    }

    method Ask(prompt: string) returns (summary: Reply<Summary>)
      modifies this
      ensures summary.Given? ==> told == old(told).(asked := old(told).asked + {(prompt, summary.value)})
      ensures summary.Raised? ==> told == old(told).(trouble := old(told).trouble + {summary.failure})
    {
      summary := *;
      match summary
      case Given(value) => told := told.(asked := told.asked + {(prompt, value)});
      case Raised(failure) => told := told.(trouble := told.trouble + {failure});
    }
  }

  // Why a poll stopped claiming.
  datatype Stop = Full | NothingFound | Abandoned

  // What the heartbeat of an execution has come to.
  datatype Pulse = Alive | Refused | Broken

  class Worker {
    const store: S.Store
    const queue: Q.TaskQueue
    const deletions: D.Deletions
    const providers: Providers
    const concurrency: nat
    var active: set<Lease>

    constructor (store: S.Store, queue: Q.TaskQueue, deletions: D.Deletions, providers: Providers, concurrency: nat)
      requires queue.store == store && deletions.store == store
      ensures this.store == store && this.queue == queue && this.deletions == deletions
      ensures this.providers == providers && this.concurrency == concurrency && active == {}
    {
      this.store, this.queue, this.deletions := store, queue, deletions;
      this.providers, this.concurrency := providers, concurrency;
      active := {};
    }

    // An execution of `lease` under way: the run so far, and what it has written in it.
    ghost predicate Running(start: World, trace: seq<Event>, lease: Lease, place: nat)
      reads store, providers
    {
      && queue.store == store && store.Valid() && Inv(start) && store.View() == Run(start, trace)
      && lease in store.past.leases
      && Logged(start, trace, lease, providers.told, place)
    }

    // Everybody else acts, but not with this execution's token.
    method Pause(lease: Lease, ghost start: World, ghost trace: seq<Event>, ghost place: nat)
      returns (ghost longer: seq<Event>)
      requires Running(start, trace, lease, place) && Quits(start, trace, lease, false)
      modifies store
      ensures Running(start, longer, lease, place) && old(store.past.leases) <= store.past.leases
      ensures Quits(start, longer, lease, false)
      ensures AddsOn(trace, longer, lease, None) && OwnBeats(longer, lease) == OwnBeats(trace, lease)
    {
      hide Run, Inv, Next, Logged, AddsOn, OwnBeats, Quits;
      ghost var w := store.View();
      ghost var mine := S.Mine(None, {}, {}, {}, {lease.token});
      ghost var es := store.Interfere(mine);
      Growth(w, es);
      RunAppend(start, trace, es);
      LogOthers(start, trace, es, lease, providers.told, place, mine);
      AddsOthers(trace, es, lease, mine);
      OthersBeatNot(trace, es, lease, mine);
      QuitsOthers(start, trace, es, lease, mine);
      longer := trace + es;
    }

    // Every await of the pipeline: others act, and the execution's heartbeat renews the lease any
    // number of times. A refusal is final: no call with this token passes the gate any more, so
    // cancelling the pipeline loses nothing. It never comes while the renewals are on time.
    method Beat(lease: Lease, beats: nat, ghost start: World, ghost trace: seq<Event>, ghost place: nat)
      returns (pulse: Pulse, ghost longer: seq<Event>)
      requires Running(start, trace, lease, place) && Quits(start, trace, lease, false)
      modifies store
      ensures Running(start, longer, lease, place) && old(store.past.leases) <= store.past.leases
      ensures Quits(start, longer, lease, pulse.Refused?)
      ensures AddsOn(trace, longer, lease, None)
      ensures pulse.Alive? ==> OwnBeats(longer, lease) == OwnBeats(trace, lease) + beats
      ensures OwnBeats(trace, lease) <= OwnBeats(longer, lease) <= OwnBeats(trace, lease) + beats
      ensures pulse.Refused? ==> Dead(store.View(), lease)
      ensures pulse.Refused? ==> forall last ::
                HeldOrLost(start, lease, last) && Unended(start, longer, lease) ==> !OnTime(start, longer, lease, last)
    {
      hide Run, Inv, Next, Dead, Owned, Logged, Enabled, HeldOrLost, Unended, OnTime, NeverRefused, Granted, AddsOn, OwnBeats, Quits;
      longer := Pause(lease, start, trace, place);
      for i := 0 to beats
        invariant Running(start, longer, lease, place) && old(store.past.leases) <= store.past.leases
        invariant Quits(start, longer, lease, false)
        invariant AddsOn(trace, longer, lease, None) && OwnBeats(longer, lease) == OwnBeats(trace, lease) + i
      {
        var raises: bool := *;
        if raises {
          return Broken, longer;
        }
        ghost var w := store.View();
        ghost var e := Heartbeat(lease, store.clock);
        var ok := queue.Heartbeat(lease);
        LogStep(start, longer, e, lease, providers.told, place);
        AddsOne(longer, e, lease);
        OneMoreBeat(longer, e, lease);
        QuitsOwn(start, longer, e, lease);
        HeartbeatIsGranted(w, e);
        AddsTwice(trace, longer, longer + [e], lease, None, None);
        if !ok {
          RefusalIsFinal(w, e);
          RefusalIsLate(start, longer, e, lease);
          longer := longer + [e];
          return Refused, longer;
        }
        longer := longer + [e];
        ghost var renewed := longer;
        longer := Pause(lease, start, longer, place);
        AddsTwice(trace, renewed, longer, lease, None, None);
      }
      pulse := Alive;
    }

    // Waits for something while the heartbeat goes on; None means go on.
    method Await(lease: Lease, ghost start: World, ghost trace: seq<Event>, ghost place: nat)
      returns (ending: Option<Ending>, ghost faults: set<Fault>, ghost longer: seq<Event>)
      requires Running(start, trace, lease, place) && Quits(start, trace, lease, false)
      modifies store
      ensures Running(start, longer, lease, place) && old(store.past.leases) <= store.past.leases
      ensures Quits(start, longer, lease, ending == Some(Cancelled(true)))
      ensures AddsOn(trace, longer, lease, None) && faults <= {HeartbeatError}
      ensures ending.None? ==> faults == {}
      ensures ending.Some? ==>
                ending.value.Cancelled? && EndsWith(start, longer, lease, ending.value) && Explains(faults, ending.value)
    {
      hide Run, Inv, Next, Dead, Owned, Logged, AddsOn, Quits;
      var beats: nat := *;
      var pulse;
      pulse, longer := Beat(lease, beats, start, trace, place);
      ending := if pulse.Alive? then None else Some(Cancelled(pulse.Refused?));
      faults := if pulse.Broken? then {HeartbeatError} else {};
    }

    // Always retryable; an error while writing only leaves the row as it is.
    method Fail(snapshot: Lease, failure: Failure, lease: Lease,
                ghost start: World, ghost trace: seq<Event>, ghost place: nat)
      returns (ending: Ending, ghost faults: set<Fault>, ghost longer: seq<Event>)
      requires Running(start, trace, lease, place) && place <= 2 && Quits(start, trace, lease, false)
      requires snapshot in store.past.leases
      requires snapshot == lease || snapshot == lease.(stage := Summarizing, transcript := snapshot.transcript)
      requires || failure in providers.told.trouble || failure == UNEXPECTED
               || (failure == TRANSCRIPT_MISSING && snapshot.stage.Summarizing? && Untranscribed(snapshot))
      modifies store
      ensures Running(start, longer, lease, 3) && EndsWith(start, longer, lease, ending)
      ensures Quits(start, longer, lease, ending == Cancelled(true))
      ensures FailsWith(trace, longer, lease, snapshot, failure)
      ensures Explains(faults, ending) && faults <= {DatabaseError, HeartbeatError}
      ensures !ending.Published? && !ending.Superseded?
      ensures failure != UNEXPECTED ==> ExpectedOnly(longer, lease, providers.told)
    {
      hide Run, Inv, Next, Logged, EndsWith, Granted, AddsOn, FailsWith, ExpectedOnly, Quits;
      var cancelled;
      cancelled, faults, longer := Await(lease, start, trace, place);
      SourcesGrow(start, longer, lease, providers.told, providers.told, place, 3);
      SourcesGrow(start, longer, lease, providers.told, providers.told, place, 2);
      FailsNever(trace, longer, lease, snapshot, failure);
      NoFailureYet(start, longer, lease, providers.told, 2);
      if cancelled.Some? {
        return cancelled.value, faults, longer;
      }
      var lost: bool := *;
      if lost {
        BreakingOffEnds(start, longer, lease);
        return BrokenOff, {DatabaseError}, longer;
      }
      ghost var e := FailTask(snapshot, failure, true, store.clock);
      var ok := queue.FailTask(snapshot, failure, true);
      LogStep(start, longer, e, lease, providers.told, 2);
      LastStep(start, longer, e, lease);
      FailsOnce(trace, longer, e, lease, snapshot, failure);
      QuitsOwn(start, longer, e, lease);
      longer := longer + [e];
      if failure != UNEXPECTED {
        FailureIsExpected(start, trace, longer, lease, providers.told, place, snapshot, failure);
      }
      return Reported, {}, longer;
    }

    // One claimed task: transcribe unless that is done, then summarize. Every await may let others
    // act, renew the lease, or be the last one; every external call may fail; and every commit may
    // land and still report an error: a database error, which is only logged, or another one,
    // which is a failure.
    method Pipeline(lease: Lease) returns (ending: Ending, ghost faults: set<Fault>, ghost trace: seq<Event>)
      requires queue.store == store && store.Valid() && lease in store.past.leases
      modifies store, providers
      ensures Running(old(store.View()), trace, lease, 3)
      ensures EndsWith(old(store.View()), trace, lease, ending) && Explains(faults, ending)
      ensures Quits(old(store.View()), trace, lease, ending == Cancelled(true))
      ensures UnreportedTranscript !in faults ==> MovesOn(trace, lease)
      ensures UnreportedTranscript !in faults && LeaseIsFresh(old(store.View()), lease) ==>
                Counts(old(store.View()), trace, lease)
      ensures OtherError !in faults ==> ExpectedOnly(trace, lease, providers.told)
      ensures !lease.stage.Transcribing? ==>
                (forall k :: OwnResult(trace, lease, k) ==> !trace[k].SaveTranscript?) && providers.told.heard == {}
    {
      hide Run, Inv, Next, Logged, EndsWith, AddsOn, MovesOn, WroteFor, Counts, ExpectedOnly, LeaseIsFresh, Granted, Quits;
      ghost var start := store.View();
      trace := [];
      RunNothing(start);
      StageIsActive(start, lease);
      providers.Forget();
      NothingLogged(start, lease, providers.told);
      QuitsNothing(start, lease);
      var held := lease;
      if lease.stage == Transcribing {
        var next: Option<Lease>;
        next, ending, faults, trace := Transcribe(lease, start);
        if next.None? {
          ResultsMayCount(start, trace, lease, providers.told, 3);
          return;
        }
        held := next.value;
      } else {
        NothingWritten(lease);
        SourcesGrow(start, trace, lease, providers.told, providers.told, 0, 1);
      }
      ghost var written := trace;
      ending, faults, trace := Summarize(held, lease, start, trace);
      MovedOn(start, written, trace, lease, held, providers.told);
      ResumedNeverTranscribes(start, trace, lease, providers.told, 3);
      ResultsMayCount(start, trace, lease, providers.told, 3);
    }

    // The check of the file, ASR, and the write that persists its transcript.
    method Transcribe(lease: Lease, ghost start: World)
      returns (next: Option<Lease>, ending: Ending, ghost faults: set<Fault>, ghost trace: seq<Event>)
      requires Running(start, [], lease, 0) && lease.stage.Transcribing? && Quits(start, [], lease, false)
      modifies store, providers
      ensures Running(start, trace, lease, if next.Some? then 1 else 3)
      ensures Quits(start, trace, lease, next.None? && ending == Cancelled(true))
      ensures next.Some? ==>
                && next.value == Advanced(lease, next.value.transcript.GetOr("")) && next.value in store.past.leases
                && WroteFor(trace, lease, next.value)
      ensures next.None? ==>
                && EndsWith(start, trace, lease, ending) && Explains(faults, ending)
                && (UnreportedTranscript !in faults ==> MovesOn(trace, lease))
                && (OtherError !in faults ==> ExpectedOnly(trace, lease, providers.told))
    {
      hide Run, Inv, Next, Granted, Logged, EndsWith, AddsOn, MovesOn, WroteFor, NoResults, FailsWith, ExpectedOnly, Quits;
      next, trace, faults := None, [], {};
      NothingWritten(lease);
      var cancelled;
      ghost var before := trace;
      cancelled, faults, trace := Await(lease, start, trace, 0);
      StillNothing(before, trace, lease);
      NoFailureYet(start, trace, lease, providers.told, 0);
      if cancelled.Some? {
        SourcesGrow(start, trace, lease, providers.told, providers.told, 0, 3);
        return None, cancelled.value, faults, trace;
      }
      ghost var told := providers.told;
      var there := providers.Exists(store, lease.key);
      SourcesGrow(start, trace, lease, told, providers.told, 0, 0);
      if !there.Present? {
        before := trace;
        var failure := if there.Missing? then AUDIO_MISSING else STORAGE_UNAVAILABLE;
        ending, faults, trace := Fail(lease, failure, lease, start, trace, 0);
        FailedFirst(before, trace, lease, lease, failure);
        return;
      }
      told := providers.told;
      var text := providers.Listen();
      SourcesGrow(start, trace, lease, told, providers.told, 0, 0);
      before := trace;
      cancelled, faults, trace := Await(lease, start, trace, 0);
      StillNothing(before, trace, lease);
      NoFailureYet(start, trace, lease, providers.told, 0);
      if cancelled.Some? {
        SourcesGrow(start, trace, lease, providers.told, providers.told, 0, 3);
        return None, cancelled.value, faults, trace;
      }
      if text.Raised? {
        before := trace;
        ending, faults, trace := Fail(lease, text.failure, lease, start, trace, 0);
        FailedFirst(before, trace, lease, lease, text.failure);
        RaisedIsExpected(start, before, trace, lease, providers.told, text.failure);
        return;
      }
      next, ending, faults, trace := Persist(lease, text.value, start, trace);
    }

    method Persist(lease: Lease, text: string, ghost start: World, ghost trace: seq<Event>)
      returns (next: Option<Lease>, ending: Ending, ghost faults: set<Fault>, ghost longer: seq<Event>)
      requires Running(start, trace, lease, 0) && lease.stage.Transcribing? && text in providers.told.heard
      requires NoResults(trace, lease) && lease.key in providers.told.found && Quits(start, trace, lease, false)
      modifies store
      ensures Running(start, longer, lease, if next.Some? then 1 else 3)
      ensures Quits(start, longer, lease, next.None? && ending == Cancelled(true))
      ensures next.Some? ==>
                && next.value == Advanced(lease, text) && next.value in store.past.leases
                && WroteFor(longer, lease, next.value)
      ensures next.None? ==>
                && EndsWith(start, longer, lease, ending) && Explains(faults, ending)
                && (UnreportedTranscript !in faults ==> MovesOn(longer, lease))
                && (OtherError !in faults ==> ExpectedOnly(longer, lease, providers.told))
    {
      hide Run, Inv, Next, Granted, Logged, EndsWith, AddsOn, MovesOn, WroteFor, NoResults, FailsWith, ExpectedOnly, Quits;
      hide Blank;
      next, longer, ending, faults := None, trace, BrokenOff, {DatabaseError};
      BreakingOffEnds(start, longer, lease);
      AddsNothing(trace, lease, None);
      StillNothing(trace, trace, lease);
      NoFailureYet(start, longer, lease, providers.told, 0);
      var lost: bool := *;         // the transaction does not land
      var generic: bool := *;      // the error, if there is one, is not a database error
      ghost var e := SaveTranscript(lease, text, store.clock);
      var answer := Q.BlankTranscript;
      if lost && !generic {
        SourcesGrow(start, longer, lease, providers.told, providers.told, 0, 3);
        return;
      }
      if !lost {
        answer := queue.Transcribed(lease, text);
      }
      if lost || answer.BlankTranscript? {
        ending, faults, longer := Fail(lease, UNEXPECTED, lease, start, longer, 0);
        FailedFirst(trace, longer, lease, lease, UNEXPECTED);
        faults := faults + {OtherError};
        return;
      }
      LogStep(start, longer, e, lease, providers.told, 0);
      LastStep(start, longer, e, lease);
      WroteOnce(longer, e, lease);
      QuitsOwn(start, longer, e, lease);
      longer := longer + [e];
      NoFailureYet(start, longer, lease, providers.told, 1);
      var unreported: bool := *;   // it landed, but an error is reported
      if unreported {
        BreakingOffEnds(start, longer, lease);
        SourcesGrow(start, longer, lease, providers.told, providers.told, 1, 3);
        if generic {
          ending, faults, longer := Fail(lease, UNEXPECTED, lease, start, longer, 1);
          faults := faults + {OtherError};
        }
        faults := faults + {UnreportedTranscript};
        return;
      }
      if answer.Advanced? {
        next, faults := Some(answer.lease), {};
      } else {
        SourcesGrow(start, longer, lease, providers.told, providers.told, 1, 3);
        ending, faults := Superseded, {};
      }
    }

    // The model call on the snapshot's transcript, and the write that publishes its summary.
    method Summarize(held: Lease, lease: Lease, ghost start: World, ghost trace: seq<Event>)
      returns (ending: Ending, ghost faults: set<Fault>, ghost longer: seq<Event>)
      requires Running(start, trace, lease, 1) && Quits(start, trace, lease, false)
      requires held.stage.Summarizing? && held in store.past.leases
      requires held == lease || held == lease.(stage := Summarizing, transcript := held.transcript)
      modifies store, providers
      ensures Running(start, longer, lease, 3) && EndsWith(start, longer, lease, ending)
      ensures Quits(start, longer, lease, ending == Cancelled(true))
      ensures AddsOn(trace, longer, lease, Some(held))
      ensures Explains(faults, ending) && UnreportedTranscript !in faults
      ensures OtherError !in faults ==> ExpectedOnly(longer, lease, providers.told)
      ensures providers.told.heard == old(providers.told).heard
    {
      hide Run, Inv, Next, Granted, Logged, EndsWith, AddsOn, ExpectedOnly, Quits;
      longer := trace;
      if held.transcript.None? || held.transcript.value == "" {
        ending, faults, longer := Fail(held, TRANSCRIPT_MISSING, lease, start, longer, 1);
        return;
      }
      ghost var told := providers.told;
      var summary := providers.Ask(held.transcript.value);
      SourcesGrow(start, longer, lease, told, providers.told, 1, 1);
      var cancelled;
      cancelled, faults, longer := Await(lease, start, longer, 1);
      AddsNothing(trace, lease, None);
      NoFailureYet(start, longer, lease, providers.told, 1);
      if cancelled.Some? {
        SourcesGrow(start, longer, lease, providers.told, providers.told, 1, 3);
        AddsNothing(longer, lease, Some(held));
        AddsTwice(trace, longer, longer, lease, None, Some(held));
        return cancelled.value, faults, longer;
      }
      ghost var mid := longer;
      if summary.Raised? {
        ending, faults, longer := Fail(held, summary.failure, lease, start, longer, 1);
        RaisedIsReported(start, mid, longer, lease, providers.told, held, summary.failure);
      } else {
        ending, faults, longer := Publish(held, summary.value, lease, start, longer);
      }
      AddsTwice(trace, mid, longer, lease, None, Some(held));
    }

    method Publish(held: Lease, summary: Summary, lease: Lease, ghost start: World, ghost trace: seq<Event>)
      returns (ending: Ending, ghost faults: set<Fault>, ghost longer: seq<Event>)
      requires Running(start, trace, lease, 1) && Quits(start, trace, lease, false)
      requires held.stage.Summarizing? && held in store.past.leases
      requires held == lease || held == lease.(stage := Summarizing, transcript := held.transcript)
      requires held.transcript.Some? && (held.transcript.value, summary) in providers.told.asked
      modifies store
      ensures Running(start, longer, lease, 3) && EndsWith(start, longer, lease, ending)
      ensures Quits(start, longer, lease, ending == Cancelled(true))
      ensures AddsOn(trace, longer, lease, Some(held))
      ensures Explains(faults, ending) && UnreportedTranscript !in faults
      ensures OtherError !in faults ==> ExpectedOnly(longer, lease, providers.told)
    {
      hide Run, Inv, Next, Granted, Logged, EndsWith, AddsOn, ExpectedOnly, Quits;
      longer, ending, faults := trace, BrokenOff, {DatabaseError};
      BreakingOffEnds(start, longer, lease);
      AddsNothing(trace, lease, Some(held));
      NoFailureYet(start, longer, lease, providers.told, 1);
      var lost: bool := *;
      var generic: bool := *;
      if lost {
        SourcesGrow(start, longer, lease, providers.told, providers.told, 1, 3);
        if generic {
          ending, faults, longer := Fail(held, UNEXPECTED, lease, start, longer, 1);
          faults := faults + {OtherError};
        }
        return;
      }
      ghost var e := CompleteTask(held, summary, store.clock);
      var ok := queue.CompleteTask(held, summary);
      LogStep(start, longer, e, lease, providers.told, 1);
      LastStep(start, longer, e, lease);
      AddsOne(longer, e, lease);
      QuitsOwn(start, longer, e, lease);
      longer := longer + [e];
      NoFailureYet(start, longer, lease, providers.told, 2);
      SourcesGrow(start, longer, lease, providers.told, providers.told, 2, 3);
      var unreported: bool := *;
      if unreported {
        BreakingOffEnds(start, longer, lease);
        if generic {
          ghost var mid := longer;
          ending, faults, longer := Fail(held, UNEXPECTED, lease, start, longer, 2);
          AddsTwice(trace, mid, longer, lease, Some(held), Some(held));
          faults := faults + {OtherError};
        }
        return;
      }
      ending, faults := if ok then Published else Superseded, {};
    }

    // The execution as a whole. Among workers it makes a worker run in which every failure asks for
    // a retry, and what it has published is the model's answer to the stored transcript. On a fresh
    // lease, and unless its transcript landed unreported, its results count as long as it owns the
    // lease, and it is superseded only when it never can write again.
    method Process(lease: Lease) returns (ending: Ending, ghost faults: set<Fault>, ghost trace: seq<Event>)
      requires queue.store == store && store.Valid() && lease in store.past.leases
      modifies store, providers
      ensures Running(old(store.View()), trace, lease, 3)
      ensures EndsWith(old(store.View()), trace, lease, ending) && Explains(faults, ending)
      ensures Quits(old(store.View()), trace, lease, ending == Cancelled(true))
      ensures OthersProper(old(store.View()), trace, lease) ==>
                WorkerRun(old(store.View()), trace) && AlwaysRetryable(trace)
      ensures ending.Published? ==>
                && lease.task in store.tasks && store.tasks[lease.task].status.Done?
                && store.tasks[lease.task].transcript.Some? && store.tasks[lease.task].summary.Some?
                && (store.tasks[lease.task].transcript.value, store.tasks[lease.task].summary.value) in providers.told.asked
      ensures ending == Cancelled(true) ==> Dead(store.View(), lease)
      ensures UnreportedTranscript !in faults && LeaseIsFresh(old(store.View()), lease) ==>
                && Counts(old(store.View()), trace, lease)
                && (ending.Superseded? ==> Dead(store.View(), lease))
      ensures OtherError !in faults ==> ExpectedOnly(trace, lease, providers.told)
    {
      hide Run, Inv, Next, Granted, Logged, Dead, Counts, LeaseIsFresh, MovesOn, ExpectedOnly, Quits;
      ghost var start := store.View();
      ending, faults, trace := Pipeline(lease);
      if OthersProper(start, trace, lease) {
        ExecutionAmongWorkers(start, trace, lease, providers.told, 3);
      }
      if ending.Published? {
        LastIsPublished(start, trace, lease, providers.told);
      }
      if ending.Superseded? && Counts(start, trace, lease) {
        SupersededIsDead(start, trace, lease, providers.told);
      }
    }

    // Reaps the finished executions, then claims until every slot is taken. A slot stays free only
    // when the last claim went through all its candidates in vain, raised, or came too late.
    method Poll(finished: set<Lease>, tokens: seq<Token>)
      returns (why: Stop, ghost trace: seq<Event>, ghost split: nat, ghost token: Token, ghost tries: seq<Q.Try>)
      requires queue.store == store && store.Valid()
      requires |active| <= concurrency == |tokens| && Slots(active, store.View())
      requires forall i, j :: 0 <= i < j < |tokens| ==> tokens[i] != tokens[j]
      requires forall i :: 0 <= i < |tokens| ==> tokens[i] !in store.past.tokens
      modifies store, this
      ensures store.Valid() && store.View() == Run(old(store.View()), trace)
      ensures |active| <= concurrency && Slots(active, store.View())
      ensures old(active) - finished <= active
      ensures forall l :: l in active && l !in old(active) - finished ==>
                l.token in tokens && l in store.past.leases
      ensures why.Full? <==> |active| == concurrency
      ensures why.NothingFound? ==> FoundNothing(old(store.View()), trace, split, token, tries)
    {
      hide Run, Inv, Next, Granted, Owned, Slots, LeaseIsFresh, Q.TriedInVain, Q.Candidates, Q.NobodyElse, FoundNothing;
      ghost var start := store.View();
      trace, split, token, tries := [], 0, 0, [];
      RunNothing(start);
      SlotsShrink(active, finished, start);
      active := active - finished;
      var k := 0;
      why := Full;
      while |active| < concurrency && k < |tokens| && why.Full?
        invariant 0 <= k <= |tokens|
        invariant store.Valid() && store.View() == Run(start, trace)
        invariant |active| <= concurrency && Slots(active, store.View())
        invariant forall i :: k <= i < |tokens| ==> tokens[i] !in store.past.tokens
        invariant old(active) - finished <= active
        invariant forall l :: l in active && l !in old(active) - finished ==>
                    l.token in tokens && l in store.past.leases
        invariant why.Full? ==> |active| >= k
        invariant !why.Full? ==> |active| < concurrency
        invariant why.NothingFound? ==> FoundNothing(start, trace, split, token, tries)
        decreases |tokens| - k, why.Full?
      {
        ghost var spare := set i | k < i < |tokens| :: tokens[i];
        ghost var w := store.View();
        token := tokens[k];
        split := |trace|;
        ghost var es, before;
        var lease;
        lease, es, before, tries := queue.Claim(tokens[k], spare);
        SlotsStay(active, w, es);
        Growth(w, es);
        if lease.Some? {
          SlotJoins(active, w, es, lease.value);
        }
        RunAppend(start, trace, es);
        if lease.None? {
          NothingWasFound(start, trace, es, token, tries);
        } else {
          HandedToUs(w, es, before, store.View(), lease.value, token);
        }
        trace := trace + es;
        assert forall i :: k < i < |tokens| ==> tokens[i] in spare;
        k := k + 1;
        if lease.None? {
          why := NothingFound;
        } else {
          // Stopping, or the claim landed but its reply was lost: it recovers when its lease expires.
          var abandoned: bool := *;
          if abandoned {
            why := Abandoned;
          } else {
            active := active + {lease.value};
          }
        }
      }
    }

    method CleanOne(r: RecordingId, when: Time) returns (answer: D.Answer, ghost es: seq<Event>)
      requires deletions.store == store && store.Valid()
      modifies store
      ensures store.Valid() && store.View() == Run(old(store.View()), es)
      ensures answer.Removed? || answer.NotFound? ==> r !in store.recordings
    {
      hide Run, Inv, Next, FrozenOrGone;
      ghost var w := store.View();
      ghost var others := store.Interfere(S.Mine(None, {}, {}, {}, {}));
      ghost var call := UnusedId(store.View().fs.deletions.Keys);
      ghost var marked, faults;
      answer, es, marked, faults := deletions.DeleteRecording(call, r, when);
      RunAppend(w, others, es);
      es := others + es;
    }

    // Deletes again what earlier deletions left behind, at most a hundred, oldest update first. An
    // answer of the service only delays its recording; any other error ends the pass.
    method CleanupOnce(updatedAt: map<RecordingId, Time>, when: Time)
      returns (ids: seq<RecordingId>, answers: seq<D.Answer>, completed: bool, ghost trace: seq<Event>)
      requires deletions.store == store && store.Valid() && store.recordings.Keys <= updatedAt.Keys
      modifies store
      ensures store.Valid() && store.View() == Run(old(store.View()), trace)
      ensures OldestMarked(old(store.recordings), updatedAt, ids)
      ensures |answers| <= |ids| && (completed ==> |answers| == |ids|)
      ensures forall i :: 0 <= i < |answers| && answers[i].Interrupted? ==> i == |answers| - 1 && !completed
      ensures forall i :: 0 <= i < |ids| ==>
                ids[i] in old(store.recordings) && FrozenOrGone(old(store.View()), store.View(), ids[i])
      ensures forall i :: 0 <= i < |answers| && (answers[i].Removed? || answers[i].NotFound?) ==>
                ids[i] !in store.recordings
    {
      hide Run, Inv, Next, FrozenOrGone, Ascending, Q.Limited;
      ghost var start := store.View();
      trace, answers, completed := [], [], true;
      RunNothing(start);
      ids := Q.Limited(Ascending(MarkedIds(store.recordings), updatedAt), CLEANUP_LIMIT);
      MarkedAreKnown(start, ids, updatedAt);
      var i := 0;
      while i < |ids| && completed
        invariant 0 <= i <= |ids|
        invariant store.Valid() && store.View() == Run(start, trace)
        invariant |answers| <= |ids| && (completed ==> |answers| == i)
        invariant forall k :: 0 <= k < |answers| && answers[k].Interrupted? ==> k == |answers| - 1 && !completed
        invariant ReallyGone(store.View(), ids, answers)
        decreases |ids| - i, completed
      {
        var raises: bool := *;     // before the deletion intent is committed
        if raises {
          completed := false;
        } else {
          ghost var w := store.View();
          var answer, es := CleanOne(ids[i], when);
          RunAppend(start, trace, es);
          trace := trace + es;
          GoneStayGone(w, es, ids, answers);
          answers := answers + [answer];
          i := i + 1;
          completed := !answer.Interrupted?;
        }
      }
      MarkedFreeze(start, trace, ids);
    }
  }

  const CLEANUP_LIMIT := 100

  function MarkedIds(recordings: map<RecordingId, Recording>): set<RecordingId> {
    set r | r in recordings && recordings[r].deletedAt.Some?
  }

  lemma MarkedAreKnown(w: World, ids: seq<RecordingId>, updatedAt: map<RecordingId, Time>)
    requires Inv(w) && w.db.recordings.Keys <= updatedAt.Keys
    requires ids == Q.Limited(Ascending(MarkedIds(w.db.recordings), updatedAt), CLEANUP_LIMIT)
    ensures ReallyGone(w, ids, []) && AllMarked(w, ids) && OldestMarked(w.db.recordings, updatedAt, ids)
  {
    hide Ascending, Q.Limited;
    LimitedMembers(MarkedIds(w.db.recordings), updatedAt, CLEANUP_LIMIT);
    LimitedIsOldest(MarkedIds(w.db.recordings), updatedAt, CLEANUP_LIMIT);
  }

  // The marked recordings, oldest update first, or the first hundred of them.
  predicate OldestMarked(recordings: map<RecordingId, Recording>, updatedAt: map<RecordingId, Time>,
                         ids: seq<RecordingId>)
    requires recordings.Keys <= updatedAt.Keys
  {
    && |ids| <= 100
    && (forall i :: 0 <= i < |ids| ==> ids[i] in recordings && recordings[ids[i]].deletedAt.Some?)
    && (forall i, j :: 0 <= i < j < |ids| ==> Before(updatedAt, ids[i], ids[j]))
    && (forall r :: r in recordings && recordings[r].deletedAt.Some? && r !in ids ==>
          |ids| == 100 && forall i :: 0 <= i < |ids| ==> Before(updatedAt, ids[i], r))
  }

  lemma LimitedIsOldest(s: set<int>, at: map<int, int>, limit: nat)
    requires s <= at.Keys
    ensures var ids := Q.Limited(Ascending(s, at), limit);
            && |ids| <= limit
            && (forall i :: 0 <= i < |ids| ==> ids[i] in at)
            && (forall i, j :: 0 <= i < j < |ids| ==> Before(at, ids[i], ids[j]))
            && (forall x :: x in s && x !in ids ==>
                  |ids| == limit && forall i :: 0 <= i < |ids| ==> Before(at, ids[i], x))
  {
    var all, ids := Ascending(s, at), Q.Limited(Ascending(s, at), limit);
    AscendingIsSorted(s, at);
    LimitedMembers(s, at, limit);
    assert forall k :: 0 <= k < |ids| ==> ids[k] == all[k] && ids[k] in ids;
    forall x | x in s && x !in ids
      ensures |ids| == limit && forall i :: 0 <= i < |ids| ==> Before(at, ids[i], x)
    {
      var k :| 0 <= k < |all| && all[k] == x;
      forall i | 0 <= i < |ids| ensures Before(at, ids[i], x) {
        assert ids[i] == all[i];
      }
    }
  }

  lemma LimitedMembers(s: set<int>, at: map<int, int>, limit: nat)
    requires s <= at.Keys
    ensures var ids := Q.Limited(Ascending(s, at), limit);
            forall i :: 0 <= i < |ids| ==> ids[i] in s
  {
    var all := Ascending(s, at);
    var ids := Q.Limited(all, limit);
    forall i | 0 <= i < |ids| ensures ids[i] in s {
      assert ids[i] == all[i] && all[i] in all;
    }
  }

  predicate AllMarked(w: World, ids: seq<RecordingId>) {
    forall i :: 0 <= i < |ids| ==> ids[i] in w.db.recordings && w.db.recordings[ids[i]].deletedAt.Some?
  }

  lemma MarkedFreeze(w: World, es: seq<Event>, ids: seq<RecordingId>)
    requires Inv(w) && AllMarked(w, ids)
    ensures forall i :: 0 <= i < |ids| ==> FrozenOrGone(w, Run(w, es), ids[i])
  {
    hide Run, Inv, FrozenOrGone;
    forall i | 0 <= i < |ids| ensures FrozenOrGone(w, Run(w, es), ids[i]) {
      DeletionFreezes(w, es, ids[i]);
    }
  }

  // The recordings are known, and those answered as removed or not found are not in the table.
  predicate ReallyGone(w: World, ids: seq<RecordingId>, answers: seq<D.Answer>) {
    && (forall i :: 0 <= i < |ids| ==> ids[i] in w.past.usedRecordings)
    && (forall i :: 0 <= i < |answers| && i < |ids| && (answers[i].Removed? || answers[i].NotFound?) ==>
          ids[i] !in w.db.recordings)
  }

  lemma GoneStayGone(w: World, es: seq<Event>, ids: seq<RecordingId>, answers: seq<D.Answer>)
    requires Inv(w) && ReallyGone(w, ids, answers)
    ensures ReallyGone(Run(w, es), ids, answers)
  {
    hide Run, Inv;
    Growth(w, es);
    forall i | 0 <= i < |answers| && i < |ids| && (answers[i].Removed? || answers[i].NotFound?)
      ensures ids[i] !in Run(w, es).db.recordings
    {
      RecordingStaysGone(w, es, ids[i]);
    }
  }

  // The claim asked at `split`, and went through all its candidates in vain.
  ghost predicate FoundNothing(start: World, trace: seq<Event>, split: nat, token: Token, tries: seq<Q.Try>) {
    && split <= |trace|
    && var asked := Run(start, trace[..split]);
       var ids := Q.Candidates(asked.db, asked.now);
       Q.TriedInVain(asked, trace[split..], token, ids, tries) && |tries| == |ids|
  }

  lemma NothingWasFound(start: World, trace: seq<Event>, es: seq<Event>, token: Token, tries: seq<Q.Try>)
    requires var asked := Run(start, trace);
             var ids := Q.Candidates(asked.db, asked.now);
             Q.TriedInVain(asked, es, token, ids, tries) && |tries| == |ids|
    ensures FoundNothing(start, trace + es, |trace|, token, tries)
  {
    hide Run, Q.TriedInVain, Q.Candidates;
    assert (trace + es)[..|trace|] == trace && (trace + es)[|trace|..] == es;
  }

  lemma HandedToUs(w: World, es: seq<Event>, before: World, end: World, lease: Lease, token: Token)
    requires Q.HandedOut(w, es, before, end, lease, token)
    ensures lease in end.past.leases && lease.token == token
  {
  }

  // Every active execution holds a token of its own that was really issued.
  predicate Slots(active: set<Lease>, w: World) {
    && (forall l :: l in active ==> l.token in w.past.tokens)
    && (forall l, m :: l in active && m in active && l.token == m.token ==> l == m)
  }

  lemma SlotsShrink(active: set<Lease>, finished: set<Lease>, w: World)
    requires Slots(active, w)
    ensures Slots(active - finished, w)
  {
  }

  lemma SlotsStay(active: set<Lease>, w: World, es: seq<Event>)
    requires Inv(w) && Slots(active, w)
    ensures Slots(active, Run(w, es))
  {
    Growth(w, es);
  }

  // A claim made with an unused token takes a slot of its own.
  lemma SlotJoins(active: set<Lease>, w: World, es: seq<Event>, lease: Lease)
    requires Inv(w) && Slots(active, w)
    requires lease.token !in w.past.tokens && lease in Run(w, es).past.leases
    ensures lease !in active && Slots(active + {lease}, Run(w, es))
  {
    Growth(w, es);
    SlotsStay(active, w, es);
    assert LeaseAgrees(Run(w, es), lease);
  }

  lemma LastIsPublished(start: World, trace: seq<Event>, lease: Lease, s: Sources)
    requires Inv(start) && Logged(start, trace, lease, s, 3) && EndsWith(start, trace, lease, Published)
    ensures lease.task in Run(start, trace).db.tasks
    ensures var row := Run(start, trace).db.tasks[lease.task];
            && row.status.Done? && row.transcript.Some? && row.summary.Some?
            && (row.transcript.value, row.summary.value) in s.asked
  {
    hide Run, Inv, Next, Granted, Disciplined;
    var before, last := trace[..|trace| - 1], trace[|trace| - 1];
    Always(start, before);
    assert Own(trace, lease, |trace| - 1);
    PublishedFromStored(Run(start, before), last, lease, s);
    S.Extend(start, before, last);
    assert before + [last] == trace;
  }

  // An execution that resumes after the transcript was stored never writes another one.
  lemma ResumedNeverTranscribes(start: World, trace: seq<Event>, lease: Lease, s: Sources, place: nat)
    requires Logged(start, trace, lease, s, place)
    ensures !lease.stage.Transcribing? ==> forall k :: OwnResult(trace, lease, k) ==> !trace[k].SaveTranscript?
  {
    hide Run;
    forall k | OwnResult(trace, lease, k) && !lease.stage.Transcribing? ensures !trace[k].SaveTranscript? {
      assert Own(trace, lease, k);
    }
  }

  lemma BreakingOffEnds(start: World, trace: seq<Event>, lease: Lease)
    ensures EndsWith(start, trace, lease, BrokenOff)
  {
  }

  lemma NothingWritten(lease: Lease)
    ensures NoResults([], lease) && WroteFor([], lease, lease) && MovesOn([], lease)
  {
  }

  lemma ResultsMayCount(start: World, trace: seq<Event>, lease: Lease, s: Sources, place: nat)
    requires Inv(start) && lease in start.past.leases && Logged(start, trace, lease, s, place)
    ensures MovesOn(trace, lease) && LeaseIsFresh(start, lease) ==> Counts(start, trace, lease)
  {
    hide Run, Logged, Counts, MovesOn, LeaseIsFresh;
    if MovesOn(trace, lease) && LeaseIsFresh(start, lease) {
      ResultsCount(start, trace, lease, s, place);
    }
  }

  // What was raised is among the trouble, even when it reads like an unexpected error.
  lemma RaisedIsReported(start: World, trace: seq<Event>, longer: seq<Event>, lease: Lease, s: Sources,
                         snapshot: Lease, failure: Failure)
    requires Logged(start, trace, lease, s, 1) && FailsWith(trace, longer, lease, snapshot, failure)
    requires failure in s.trouble
    ensures ExpectedOnly(longer, lease, s) && AddsOn(trace, longer, lease, Some(snapshot))
  {
    FailureIsExpected(start, trace, longer, lease, s, 1, snapshot, failure);
  }

  lemma RaisedIsExpected(start: World, trace: seq<Event>, longer: seq<Event>, lease: Lease, s: Sources, failure: Failure)
    requires Logged(start, trace, lease, s, 0) && FailsWith(trace, longer, lease, lease, failure)
    requires failure in s.trouble
    ensures ExpectedOnly(longer, lease, s)
  {
    FailureIsExpected(start, trace, longer, lease, s, 0, lease, failure);
  }

  // A fresh execution whose write is refused has lost its lease for good.
  lemma SupersededIsDead(start: World, trace: seq<Event>, lease: Lease, s: Sources)
    requires Inv(start) && lease in start.past.leases && Logged(start, trace, lease, s, 3)
    requires EndsWith(start, trace, lease, Superseded) && Counts(start, trace, lease)
    ensures Dead(Run(start, trace), lease)
  {
    hide Run, Inv, Next, Granted, Owned, Dead;
    var before, last := trace[..|trace| - 1], trace[|trace| - 1];
    assert OwnResult(trace, lease, |trace| - 1) && Own(trace, lease, |trace| - 1);
    assert Disciplined(Run(start, before), last, lease, s);
    Always(start, before);
    Growth(start, before);
    OwnersAgree(Run(start, before), last, lease);
    S.Extend(start, before, last);
    assert before + [last] == trace;
    RefusalKills(Run(start, before), last, lease);
  }

  lemma OwnersAgree(w: World, e: Event, lease: Lease)
    requires IsLeaseEvent(e) && SameOwner(e.lease, lease)
    ensures Owned(w, e.lease, e.at) <==> Owned(w, lease, e.at)
    ensures Dead(w, e.lease) <==> Dead(w, lease)
  {
  }

  lemma RefusalKills(w: World, e: Event, lease: Lease)
    requires Inv(w) && IsLeaseEvent(e) && e.lease in w.past.leases && e.at == w.now
    requires SameOwner(e.lease, lease) && !Owned(w, e.lease, e.at)
    ensures Dead(Next(w, e), lease)
  {
    RefusalIsFinal(w, e);
    OwnersAgree(Next(w, e), e, lease);
  }

  // Renewals that are on time are not refused.
  lemma RefusalIsLate(start: World, trace: seq<Event>, e: Event, lease: Lease)
    requires Inv(start) && IsRenewal(e, lease) && e.at == Run(start, trace).now
    requires !Owned(Run(start, trace), e.lease, e.at)
    ensures forall last ::
              HeldOrLost(start, lease, last) && Unended(start, trace + [e], lease) ==>
                !OnTime(start, trace + [e], lease, last)
  {
    hide Run, Next, HeldOrLost, Unended, OnTime, NeverRefused;
    Always(start, trace);
    NotOwnedNotGranted(Run(start, trace), e);
    RefusalIsSeen(start, trace, e, lease);
    forall last | HeldOrLost(start, lease, last) && Unended(start, trace + [e], lease)
      ensures !OnTime(start, trace + [e], lease, last)
    {
      NeverRefusedExactly(start, trace + [e], lease, last);
    }
  }

  lemma HeartbeatIsGranted(w: World, e: Event)
    requires Inv(w) && e.Heartbeat? && e.at == w.now
    ensures Granted(w, e) <==> Owned(w, e.lease, e.at)
  {
  }

  lemma NotOwnedNotGranted(w: World, e: Event)
    requires Inv(w) && e.Heartbeat? && e.at == w.now && !Owned(w, e.lease, e.at)
    ensures Enabled(w, e) && !Granted(w, e)
  {
  }

  lemma StageIsActive(w: World, lease: Lease)
    requires Inv(w) && lease in w.past.leases
    ensures Active(lease.stage)
  {
    assert LeaseAgrees(w, lease);
  }

  lemma RefusalIsFinal(w: World, e: Event)
    requires Inv(w) && IsLeaseEvent(e) && e.lease in w.past.leases && e.at == w.now
    requires !Owned(w, e.lease, e.at)
    ensures Dead(Next(w, e), e.lease)
  {
    assert LeaseAgrees(w, e.lease);
    FailedGateKills(w, e);
  }
}
