/** What one execution of a task writes, as read off the events that carry its token. */
module Discipline {
  import opened Domain
  import opened Backoff
  import opened System
  import opened Shapes
  import opened Rows
  import opened Fencing
  import opened History
  import opened Transcripts
  import opened Safety
  import opened Heartbeats
  import S = Store

  // What an execution has been told so far: the files it found, what speech recognition heard, what
  // the language model answered to which prompt, and what went wrong, as the failure to report.
  datatype Sources = Sources(
    found: set<Key>,
    heard: set<string>,
    asked: set<(string, Summary)>,
    trouble: set<Failure>)

  const STORAGE_UNAVAILABLE := Failure("storage_unavailable", "Audio storage is unavailable.")
  const AUDIO_MISSING := Failure("audio_missing", "Audio file is unavailable.")
  const TRANSCRIPT_MISSING := Failure("transcript_missing", "Transcript is unavailable.")
  const UNEXPECTED := Failure("processing_failed", "Task processing failed.")

  predicate Grew(s: Sources, s': Sources) {
    s.found <= s'.found && s.heard <= s'.heard && s.asked <= s'.asked && s.trouble <= s'.trouble
  }

  predicate Untranscribed(lease: Lease) {
    lease.transcript.None? || lease.transcript.value == ""
  }

  // The snapshot a persisted transcript turns another one into.
  function Advanced(lease: Lease, text: string): Lease {
    lease.(stage := Summarizing, transcript := Some(text))
  }

  // What every worker sees to: snapshots that were handed out, completions only when summarizing,
  // retries asked for whenever it fails.
  predicate Proper(w: World, e: Event) {
    ByWorker(w, e) && (e.FailTask? ==> e.retryable)
  }

  // An execution moreover acts at once, on its lease as it got it or with a transcript; persists
  // only what it heard, for a lease that is still to be transcribed and whose file it found; completes only with the answer
  // to the transcript in its snapshot; and reports only what went wrong.
  predicate Disciplined(w: World, e: Event, lease: Lease, s: Sources) {
    && IsLeaseEvent(e) && Proper(w, e) && SameOwner(e.lease, lease)
    && e.at == w.now
    && (e.lease == lease || e.lease == lease.(stage := Summarizing, transcript := e.lease.transcript))
    && (e.SaveTranscript? ==>
          && e.lease == lease && lease.stage.Transcribing? && lease.key in s.found
          && e.text in s.heard && !Blank(e.text))
    && (e.FailTask? ==>
          || e.failure in s.trouble || e.failure == UNEXPECTED
          || (e.failure == TRANSCRIPT_MISSING && e.lease.stage.Summarizing? && Untranscribed(e.lease)))
    && (e.CompleteTask? ==> e.lease.transcript.Some? && (e.lease.transcript.value, e.summary) in s.asked)
  }

  // The order of its results: a transcript, a summary, a failure last.
  function Place(e: Event): nat {
    if e.SaveTranscript? then 0 else if e.CompleteTask? then 1 else 2
  }

  predicate Own(trace: seq<Event>, lease: Lease, k: int) {
    0 <= k < |trace| && IsLeaseEvent(trace[k]) && trace[k].lease.token == lease.token
  }

  predicate OwnResult(trace: seq<Event>, lease: Lease, k: int) {
    Own(trace, lease, k) && !trace[k].Heartbeat?
  }

  // Every event of the run that carries the lease's token is disciplined, and the results come in
  // order, so far all of them before `place`.
  ghost predicate Logged(start: World, trace: seq<Event>, lease: Lease, s: Sources, place: nat) {
    && (forall k :: Own(trace, lease, k) ==> Disciplined(Run(start, trace[..k]), trace[k], lease, s))
    && (forall j, k :: OwnResult(trace, lease, j) && OwnResult(trace, lease, k) && j < k ==>
          Place(trace[j]) < Place(trace[k]))
    && (forall k :: OwnResult(trace, lease, k) ==> Place(trace[k]) < place)
  }

  lemma NothingLogged(start: World, lease: Lease, s: Sources)
    ensures Logged(start, [], lease, s, 0)
  {
  }

  lemma SourcesGrow(start: World, trace: seq<Event>, lease: Lease, s: Sources, s': Sources, place: nat, later: nat)
    requires Logged(start, trace, lease, s, place) && Grew(s, s') && place <= later
    ensures Logged(start, trace, lease, s', later)
  {
    hide Run;
  }

  // Others never carry the token.
  lemma LogOthers(start: World, trace: seq<Event>, es: seq<Event>, lease: Lease, s: Sources, place: nat, mine: S.Mine)
    requires Logged(start, trace, lease, s, place)
    requires S.AllAvoid(es, mine) && lease.token in mine.held
    ensures Logged(start, trace + es, lease, s, place)
  {
    hide Run, Disciplined;
    var longer := trace + es;
    forall k | Own(longer, lease, k) ensures Own(trace, lease, k) && longer[..k] == trace[..k] {
      assert k >= |trace| ==> S.Avoids(es[k - |trace|], mine);
    }
  }

  lemma LogOwn(start: World, trace: seq<Event>, e: Event, lease: Lease, s: Sources, place: nat)
    requires Logged(start, trace, lease, s, place) && Disciplined(Run(start, trace), e, lease, s)
    requires e.Heartbeat? || place <= Place(e)
    ensures Logged(start, trace + [e], lease, s, if e.Heartbeat? then place else Place(e) + 1)
  {
    hide Run, Disciplined;
    var longer := trace + [e];
    assert longer[..|trace|] == trace;
    forall k | Own(longer, lease, k) && k < |trace| ensures Own(trace, lease, k) && longer[..k] == trace[..k] {
    }
  }

  // One more transaction of the execution.
  lemma LogStep(start: World, trace: seq<Event>, e: Event, lease: Lease, s: Sources, place: nat)
    requires Inv(Run(start, trace)) && lease in Run(start, trace).past.leases
    requires Logged(start, trace, lease, s, place) && Disciplined(Run(start, trace), e, lease, s)
    requires e.Heartbeat? || place <= Place(e)
    ensures Run(start, trace + [e]) == Next(Run(start, trace), e)
    ensures Run(start, trace).past.leases <= Run(start, trace + [e]).past.leases
    ensures Logged(start, trace + [e], lease, s, if e.Heartbeat? then place else Place(e) + 1)
  {
    hide Run, Disciplined, Logged;
    S.Extend(start, trace, e);
    LogOwn(start, trace, e, lease, s, place);
    Kept(Run(start, trace), e);
  }

  // ---------- Which snapshot, and whether it counts ----------

  // What `longer` adds to `trace` of the execution's results: only ones on this snapshot.
  ghost predicate AddsOn(trace: seq<Event>, longer: seq<Event>, lease: Lease, snapshot: Option<Lease>) {
    && trace <= longer
    && forall k :: |trace| <= k && OwnResult(longer, lease, k) ==> snapshot == Some(longer[k].lease)
  }

  ghost predicate NoResults(trace: seq<Event>, lease: Lease) {
    forall k :: !OwnResult(trace, lease, k)
  }

  // All it has written is the transcript that made `held` of its lease, if anything.
  ghost predicate WroteFor(trace: seq<Event>, lease: Lease, held: Lease) {
    forall k :: OwnResult(trace, lease, k) ==>
      trace[k].SaveTranscript? && held == Advanced(trace[k].lease, trace[k].text)
  }

  // Once it has written the transcript, it works on the snapshot with the transcript.
  ghost predicate MovesOn(trace: seq<Event>, lease: Lease) {
    forall j, k :: OwnResult(trace, lease, j) && OwnResult(trace, lease, k) && j < k && trace[j].SaveTranscript? ==>
      trace[k].lease == Advanced(trace[j].lease, trace[j].text)
  }

  // A result is accepted exactly if the lease is owned at its clock reading.
  ghost predicate Counts(start: World, trace: seq<Event>, lease: Lease) {
    forall k :: OwnResult(trace, lease, k) ==>
      var before := Run(start, trace[..k]);
      (Granted(before, trace[k]) <==> Owned(before, lease, trace[k].at))
  }

  lemma SharedResults(trace: seq<Event>, longer: seq<Event>, lease: Lease)
    requires trace <= longer
    ensures forall k :: k < |trace| && OwnResult(longer, lease, k) ==> OwnResult(trace, lease, k) && trace[k] == longer[k]
  {
  }

  lemma AddsNothing(trace: seq<Event>, lease: Lease, snapshot: Option<Lease>)
    ensures AddsOn(trace, trace, lease, snapshot)
  {
  }

  lemma AddsTwice(trace: seq<Event>, mid: seq<Event>, longer: seq<Event>, lease: Lease,
                  first: Option<Lease>, snapshot: Option<Lease>)
    requires AddsOn(trace, mid, lease, first) && AddsOn(mid, longer, lease, snapshot)
    requires first.None? || first == snapshot
    ensures AddsOn(trace, longer, lease, snapshot)
  {
    forall k | |trace| <= k && OwnResult(longer, lease, k) ensures snapshot == Some(longer[k].lease) {
      assert k < |mid| ==> OwnResult(mid, lease, k) && mid[k] == longer[k];
    }
  }

  lemma AddsOthers(trace: seq<Event>, es: seq<Event>, lease: Lease, mine: S.Mine)
    requires S.AllAvoid(es, mine) && lease.token in mine.held
    ensures AddsOn(trace, trace + es, lease, None)
  {
    forall k | |trace| <= k < |trace + es| ensures !OwnResult(trace + es, lease, k) {
      assert (trace + es)[k] == es[k - |trace|] && S.Avoids(es[k - |trace|], mine);
    }
  }

  lemma AddsOne(trace: seq<Event>, e: Event, lease: Lease)
    requires IsLeaseEvent(e)
    ensures AddsOn(trace, trace + [e], lease, if e.Heartbeat? then None else Some(e.lease))
  {
  }

  lemma StillNothing(trace: seq<Event>, longer: seq<Event>, lease: Lease)
    requires NoResults(trace, lease) && AddsOn(trace, longer, lease, None)
    ensures NoResults(longer, lease) && MovesOn(longer, lease)
  {
    forall k | OwnResult(longer, lease, k) ensures false {
      assert k < |trace| ==> OwnResult(trace, lease, k);
    }
  }

  // A single transcript is the only result so far.
  lemma WroteOnce(trace: seq<Event>, e: Event, lease: Lease)
    requires NoResults(trace, lease) && e.SaveTranscript?
    ensures WroteFor(trace + [e], lease, Advanced(e.lease, e.text)) && MovesOn(trace + [e], lease)
  {
    forall k | OwnResult(trace + [e], lease, k) ensures k == |trace| {
      assert k < |trace| ==> OwnResult(trace, lease, k);
    }
  }

  // All that `longer` adds to `trace` of its results is this failure on this snapshot.
  ghost predicate FailsWith(trace: seq<Event>, longer: seq<Event>, lease: Lease, snapshot: Lease, failure: Failure) {
    && AddsOn(trace, longer, lease, Some(snapshot))
    && forall k :: |trace| <= k && OwnResult(longer, lease, k) ==>
         longer[k].FailTask? && longer[k].failure == failure
  }

  lemma FailsOnce(trace: seq<Event>, mid: seq<Event>, e: Event, lease: Lease, snapshot: Lease, failure: Failure)
    requires AddsOn(trace, mid, lease, None) && e.FailTask? && e.lease == snapshot && e.failure == failure
    ensures FailsWith(trace, mid + [e], lease, snapshot, failure)
  {
    AddsOne(mid, e, lease);
    AddsTwice(trace, mid, mid + [e], lease, None, Some(snapshot));
    forall k | |trace| <= k && OwnResult(mid + [e], lease, k)
      ensures (mid + [e])[k].FailTask? && (mid + [e])[k].failure == failure
    {
      assert k < |mid| ==> OwnResult(mid, lease, k);
    }
  }

  lemma FailsNever(trace: seq<Event>, longer: seq<Event>, lease: Lease, snapshot: Lease, failure: Failure)
    requires AddsOn(trace, longer, lease, None)
    ensures FailsWith(trace, longer, lease, snapshot, failure)
  {
  }

  // The only failure of an execution is the one it ends with.
  lemma FailureIsExpected(start: World, trace: seq<Event>, longer: seq<Event>, lease: Lease, s: Sources,
                          place: nat, snapshot: Lease, failure: Failure)
    requires Logged(start, trace, lease, s, place) && place <= 2
    requires FailsWith(trace, longer, lease, snapshot, failure)
    requires failure == UNEXPECTED ==> UNEXPECTED in s.trouble
    ensures ExpectedOnly(longer, lease, s)
  {
    hide Run;
    SharedResults(trace, longer, lease);
  }

  lemma NoFailureYet(start: World, trace: seq<Event>, lease: Lease, s: Sources, place: nat)
    requires Logged(start, trace, lease, s, place) && place <= 2
    ensures ExpectedOnly(trace, lease, s)
  {
    hide Run;
  }

  // Without a transcript of its own, an execution may fail on the snapshot it has.
  lemma FailedFirst(trace: seq<Event>, longer: seq<Event>, lease: Lease, snapshot: Lease, failure: Failure)
    requires NoResults(trace, lease) && FailsWith(trace, longer, lease, snapshot, failure)
    ensures MovesOn(longer, lease)
  {
    forall k | OwnResult(longer, lease, k) ensures longer[k].FailTask? {
      assert k < |trace| ==> OwnResult(trace, lease, k);
    }
  }

  lemma MovedOn(start: World, trace: seq<Event>, longer: seq<Event>, lease: Lease, held: Lease, s: Sources)
    requires Logged(start, longer, lease, s, 3) && WroteFor(trace, lease, held)
    requires AddsOn(trace, longer, lease, Some(held)) && held.stage.Summarizing?
    ensures MovesOn(longer, lease)
  {
    hide Run;
    SharedResults(trace, longer, lease);
    forall j, k | OwnResult(longer, lease, j) && OwnResult(longer, lease, k) && j < k && longer[j].SaveTranscript?
      ensures longer[k].lease == Advanced(longer[j].lease, longer[j].text)
    {
      assert Own(longer, lease, j);
      assert Disciplined(Run(start, longer[..j]), longer[j], lease, s);
    }
  }

  lemma {:induction false} FreshStays(w: World, es: seq<Event>, lease: Lease)
    requires RowsInv(w) && lease.token in w.past.tokens && lease.stage.Transcribing? && LeaseIsFresh(w, lease)
    requires forall k :: OwnResult(es, lease, k) ==> !es[k].SaveTranscript?
    ensures LeaseIsFresh(Run(w, es), lease)
    decreases |es|
  {
    if es != [] {
      assert OwnResult(es, lease, 0) || !es[0].SaveTranscript? || es[0].lease.token != lease.token;
      FreshStep(w, es[0], lease);
      var w1, rest := Next(w, es[0]), es[1..];
      forall k | OwnResult(rest, lease, k) ensures !rest[k].SaveTranscript? {
        assert OwnResult(es, lease, k + 1);
      }
      RowsKept(w, es[0]);
      FreshStays(w1, rest, lease);
    }
  }

  lemma FreshStep(w: World, e: Event, lease: Lease)
    requires RowsInv(w) && lease.token in w.past.tokens && lease.stage.Transcribing? && LeaseIsFresh(w, lease)
    requires e.SaveTranscript? ==> e.lease.token != lease.token
    ensures LeaseIsFresh(Next(w, e), lease)
  {
    RowsKept(w, e);
    assert RowStep(w, e, Next(w, e), lease.task);
  }

  // Every result of an execution that started on a fresh snapshot and moved on with its transcript
  // counts if and only if the lease is still owned: no stage mismatch ever swallows one.
  lemma ResultsCount(start: World, trace: seq<Event>, lease: Lease, s: Sources, place: nat)
    requires Inv(start) && lease in start.past.leases && LeaseIsFresh(start, lease)
    requires Logged(start, trace, lease, s, place) && MovesOn(trace, lease)
    ensures Counts(start, trace, lease)
  {
    hide Run;
    forall k | OwnResult(trace, lease, k)
      ensures var before := Run(start, trace[..k]);
              Granted(before, trace[k]) <==> Owned(before, lease, trace[k].at)
    {
      assert Own(trace, lease, k);
      var es, e := trace[..k], trace[k];
      Always(start, es);
      if e.lease.stage.Transcribing? {
        forall j | OwnResult(es, lease, j) ensures !es[j].SaveTranscript? {
          assert OwnResult(trace, lease, j) && trace[j] == es[j];
        }
        TokenIsIssued(start, lease);
        FreshStays(start, es, lease);
      }
      ResultCounts(Run(start, es), e, lease, s);
    }
  }

  lemma TokenIsIssued(w: World, lease: Lease)
    requires Inv(w) && lease in w.past.leases
    ensures lease.token in w.past.tokens
  {
    assert LeaseAgrees(w, lease);
  }

  lemma ResultCounts(w: World, e: Event, lease: Lease, s: Sources)
    requires Inv(w) && Disciplined(w, e, lease, s) && !e.Heartbeat?
    requires e.lease.stage.Transcribing? ==> LeaseIsFresh(w, lease)
    ensures Granted(w, e) <==> Owned(w, lease, e.at)
  {
    assert LeaseAgrees(w, e.lease);
  }

  // The renewals an execution has asked for.
  function OwnBeats(trace: seq<Event>, lease: Lease): nat
    decreases |trace|
  {
    if trace == [] then 0
    else
      var last := trace[|trace| - 1];
      OwnBeats(trace[..|trace| - 1], lease) + (if last.Heartbeat? && last.lease.token == lease.token then 1 else 0)
  }

  lemma OneMoreBeat(trace: seq<Event>, e: Event, lease: Lease)
    ensures OwnBeats(trace + [e], lease) ==
            OwnBeats(trace, lease) + (if e.Heartbeat? && e.lease.token == lease.token then 1 else 0)
  {
    assert (trace + [e])[..|trace|] == trace;
  }

  lemma {:induction false} OthersBeatNot(trace: seq<Event>, es: seq<Event>, lease: Lease, mine: S.Mine)
    requires S.AllAvoid(es, mine) && lease.token in mine.held
    ensures OwnBeats(trace + es, lease) == OwnBeats(trace, lease)
    decreases |es|
  {
    if es == [] {
      assert trace + es == trace;
    } else {
      var init, last := es[..|es| - 1], es[|es| - 1];
      assert S.Avoids(last, mine);
      forall i | 0 <= i < |init| ensures S.Avoids(init[i], mine) {
        assert init[i] == es[i];
      }
      OthersBeatNot(trace, init, lease, mine);
      OneMoreBeat(trace + init, last, lease);
      assert trace + init + [last] == trace + es;
    }
  }

  // Every renewal was accepted; or, once one is refused, the execution does nothing more.
  ghost predicate Quits(start: World, trace: seq<Event>, lease: Lease, refused: bool) {
    forall j :: Own(trace, lease, j) && trace[j].Heartbeat? && !Granted(Run(start, trace[..j]), trace[j]) ==>
      refused && forall k :: Own(trace, lease, k) ==> k <= j
  }

  lemma QuitsNothing(start: World, lease: Lease)
    ensures Quits(start, [], lease, false)
  {
  }

  lemma QuitsOthers(start: World, trace: seq<Event>, es: seq<Event>, lease: Lease, mine: S.Mine)
    requires Quits(start, trace, lease, false) && S.AllAvoid(es, mine) && lease.token in mine.held
    ensures Quits(start, trace + es, lease, false)
  {
    hide Run, Granted;
    var longer := trace + es;
    forall j | Own(longer, lease, j) ensures Own(trace, lease, j) && longer[..j] == trace[..j] {
      assert j >= |trace| ==> S.Avoids(es[j - |trace|], mine);
    }
  }

  // An event of one's own, which is the last one if it is a refused renewal.
  lemma QuitsOwn(start: World, trace: seq<Event>, e: Event, lease: Lease)
    requires Quits(start, trace, lease, false)
    ensures Quits(start, trace + [e], lease, e.Heartbeat? && !Granted(Run(start, trace), e))
  {
    hide Run, Granted;
    var longer := trace + [e];
    assert longer[..|trace|] == trace;
    forall j | Own(longer, lease, j) && j < |trace| ensures Own(trace, lease, j) && longer[..j] == trace[..j] {
    }
  }

  // How an execution ends: its summary accepted, a write of its refused, a failure reported, its
  // heartbeat gone, or an error that leaves the rest to a later claim.
  datatype Ending = Published | Superseded | Reported | Cancelled(refused: bool) | BrokenOff

  // What may go wrong around an execution: errors of the database or of its heartbeat, a
  // transcript that landed unreported, and errors nobody expects.
  datatype Fault = DatabaseError | HeartbeatError | UnreportedTranscript | OtherError

  // Without faults an execution ends with a result of its own or finds itself superseded, and
  // reports nothing but its trouble.
  predicate Explains(faults: set<Fault>, ending: Ending) {
    && (ending.BrokenOff? ==> DatabaseError in faults)
    && (ending == Cancelled(false) ==> HeartbeatError in faults)
  }

  ghost predicate ExpectedOnly(trace: seq<Event>, lease: Lease, s: Sources) {
    forall k :: OwnResult(trace, lease, k) && trace[k].FailTask? && trace[k].failure == UNEXPECTED ==>
      UNEXPECTED in s.trouble
  }

  // What the end of the run shows of it.
  ghost predicate EndsWith(start: World, trace: seq<Event>, lease: Lease, ending: Ending) {
    match ending
    case Cancelled(refused) => refused ==> Dead(Run(start, trace), lease)
    case BrokenOff => true
    case _ =>
      && trace != [] && OwnResult(trace, lease, |trace| - 1)
      && var before, last := Run(start, trace[..|trace| - 1]), trace[|trace| - 1];
      && (ending.Published? ==> last.CompleteTask? && Granted(before, last))
      && (ending.Superseded? ==> !last.FailTask? && !Granted(before, last))
      && (ending.Reported? ==> last.FailTask?)
  }

  lemma LastStep(start: World, trace: seq<Event>, e: Event, lease: Lease)
    requires IsLeaseEvent(e) && !e.Heartbeat? && e.lease.token == lease.token
    ensures e.CompleteTask? && Granted(Run(start, trace), e) ==> EndsWith(start, trace + [e], lease, Published)
    ensures !e.FailTask? && !Granted(Run(start, trace), e) ==> EndsWith(start, trace + [e], lease, Superseded)
    ensures e.FailTask? ==> EndsWith(start, trace + [e], lease, Reported)
  {
    hide Run, Granted;
    assert (trace + [e])[..|trace|] == trace;
  }

  // A refused renewal shows that the renewals were not all on time.
  lemma {:induction false} RefusalIsSeen(w: World, es: seq<Event>, e: Event, lease: Lease)
    requires IsRenewal(e, lease) && Enabled(Run(w, es), e) && !Granted(Run(w, es), e)
    ensures !NeverRefused(w, es + [e], lease)
    decreases |es|
  {
    hide Next, Granted, Enabled;
    if es == [] {
      assert es + [e] == [e];
    } else {
      assert (es + [e])[1..] == es[1..] + [e];
      RefusalIsSeen(Next(w, es[0]), es[1..], e, lease);
    }
  }

  // ---------- What the discipline of all executions gives ----------

  // All events but this execution's are proper as well.
  ghost predicate OthersProper(start: World, trace: seq<Event>, lease: Lease) {
    forall k :: 0 <= k < |trace| && !Own(trace, lease, k) ==> Proper(Run(start, trace[..k]), trace[k])
  }

  lemma {:induction false} ProperRun(w: World, es: seq<Event>)
    requires forall k :: 0 <= k < |es| ==> Proper(Run(w, es[..k]), es[k])
    ensures WorkerRun(w, es) && AlwaysRetryable(es)
    decreases |es|
  {
    hide Next, ByWorker;
    if es != [] {
      var w1, rest := Next(w, es[0]), es[1..];
      assert Proper(Run(w, es[..0]), es[0]);
      forall k | 0 <= k < |rest| ensures Proper(Run(w1, rest[..k]), rest[k]) {
        assert es[..k + 1][1..] == rest[..k];
        assert Proper(Run(w, es[..k + 1]), es[k + 1]);
      }
      ProperRun(w1, rest);
      forall i | 0 <= i < |es| && es[i].FailTask? ensures es[i].retryable {
        assert i > 0 ==> rest[i - 1] == es[i];
      }
    }
  }

  // An execution among workers makes a worker run, in which every failure asks for a retry.
  lemma ExecutionAmongWorkers(start: World, trace: seq<Event>, lease: Lease, s: Sources, place: nat)
    requires Logged(start, trace, lease, s, place) && OthersProper(start, trace, lease)
    ensures WorkerRun(start, trace) && AlwaysRetryable(trace)
  {
    hide Run;
    forall k | 0 <= k < |trace| ensures Proper(Run(start, trace[..k]), trace[k]) {
      if Own(trace, lease, k) {
        assert Disciplined(Run(start, trace[..k]), trace[k], lease, s);
      }
    }
    ProperRun(start, trace);
  }

  // What an execution publishes is the answer to the transcript the task has stored.
  lemma PublishedFromStored(w: World, e: Event, lease: Lease, s: Sources)
    requires Inv(w) && Disciplined(w, e, lease, s) && e.CompleteTask? && Granted(w, e)
    ensures lease.task in Next(w, e).db.tasks
    ensures var row := Next(w, e).db.tasks[lease.task];
            && row.status.Done? && row.transcript.Some? && row.summary == Some(e.summary)
            && (row.transcript.value, e.summary) in s.asked
  {
    assert LeaseAgrees(w, e.lease);
    QueueShape(w, e);
  }

  // ---------- The service as a whole ----------

  // One execution within a run of the service.
  datatype Execution = Execution(from: nat, to: nat, lease: Lease, sources: Sources)

  ghost predicate Executed(w: World, es: seq<Event>, x: Execution) {
    x.from <= x.to <= |es| && Logged(Run(w, es[..x.from]), es[x.from..x.to], x.lease, x.sources, 3)
  }

  predicate Covers(es: seq<Event>, x: Execution, k: int) {
    && x.from <= k < x.to <= |es|
    && 0 <= k < |es| && IsLeaseEvent(es[k]) && es[k].lease.token == x.lease.token
  }

  // Leases are presented by executions, and by nobody else.
  ghost predicate ByExecutions(w: World, es: seq<Event>, xs: seq<Execution>) {
    && (forall i :: 0 <= i < |xs| ==> Executed(w, es, xs[i]))
    && (forall k :: 0 <= k < |es| && IsLeaseEvent(es[k]) ==> exists i :: 0 <= i < |xs| && Covers(es, xs[i], k))
  }

  lemma CoveredIsDisciplined(w: World, es: seq<Event>, x: Execution, k: nat)
    requires Executed(w, es, x) && Covers(es, x, k)
    ensures Disciplined(Run(w, es[..k]), es[k], x.lease, x.sources)
  {
    hide Run, Disciplined;
    var part := es[x.from..x.to];
    assert Own(part, x.lease, k - x.from) && part[k - x.from] == es[k];
    assert es[..x.from] + part[..k - x.from] == es[..k];
    RunAppend(w, es[..x.from], part[..k - x.from]);
  }

  lemma ExecutionsMakeWorkerRun(w: World, es: seq<Event>, xs: seq<Execution>)
    requires ByExecutions(w, es, xs)
    ensures WorkerRun(w, es) && AlwaysRetryable(es)
  {
    hide Run, Executed;
    forall k | 0 <= k < |es| ensures Proper(Run(w, es[..k]), es[k]) {
      if IsLeaseEvent(es[k]) {
        var i :| 0 <= i < |xs| && Covers(es, xs[i], k);
        CoveredIsDisciplined(w, es, xs[i], k);
      }
    }
    ProperRun(w, es);
  }

  lemma {:induction false} CompletionHasPlace(w: World, es: seq<Event>, t: TaskId) returns (k: nat)
    requires Completion(w, es, t).Some?
    ensures k < |es| && es[k] == Completion(w, es, t).value && es[k].CompleteTask?
    decreases |es|
  {
    hide Next, Granted;
    if Granted(w, es[0]) && es[0].CompleteTask? && es[0].lease.task == t {
      k := 0;
    } else {
      k := CompletionHasPlace(Next(w, es[0]), es[1..], t);
      k := k + 1;
    }
  }

  // In a service whose leases are presented by executions only, every failed task has spent its
  // retries and waited for them, and every done task shows the model's answer to the transcript
  // it stores.
  lemma ServiceKeepsPromises(w: World, es: seq<Event>, xs: seq<Execution>, t: TaskId)
    requires Start(w) && ByExecutions(w, es, xs) && t in Run(w, es).db.tasks
    ensures var row := Run(w, es).db.tasks[t];
            && (row.status.Failed? ==>
                  && row.retries == MAX_AUTO_RETRIES && row.startedAt.Some? && row.finishedAt.Some?
                  && row.finishedAt.value >= row.startedAt.value + Waited(w.cfg.base, MAX_AUTO_RETRIES))
            && (row.status.Done? ==>
                  && row.transcript.Some? && row.summary.Some?
                  && exists i :: 0 <= i < |xs| && (row.transcript.value, row.summary.value) in xs[i].sources.asked)
  {
    hide Executed;
    ExecutionsMakeWorkerRun(w, es, xs);
    StartInv(w);
    var row := Run(w, es).db.tasks[t];
    if row.status.Failed? {
      FailureTakesSevenBases(w, es, t);
    }
    if row.status.Done? {
      SummaryComesFromTranscript(w, es, t);
      var k := CompletionHasPlace(w, es, t);
      var i :| 0 <= i < |xs| && Covers(es, xs[i], k);
      CoveredIsDisciplined(w, es, xs[i], k);
    }
  }
}
