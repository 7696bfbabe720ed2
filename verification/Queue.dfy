/** The task queue as the workers call it. */
module Queue {
  import opened Domain
  import opened Backoff
  import opened TaskRow
  import opened System
  import opened Shapes
  import opened Rows
  import opened Fencing
  import opened History
  import opened Safety
  import opened Journal
  import opened Transcripts
  import opened Ordering
  import S = Store

  const CANDIDATE_LIMIT := 100

  datatype TranscriptAnswer = BlankTranscript | NotOwned | Advanced(lease: Lease)

  // The discovery query: visible and eligible, oldest first, a hundred at most.
  function EligibleIds(db: Tables, now: Time): set<TaskId> {
    set t | t in db.tasks && Eligible(db.tasks[t], now)
      && db.tasks[t].recording in db.recordings && db.recordings[db.tasks[t].recording].deletedAt.None?
  }

  function CreationTimes(db: Tables): (at: map<TaskId, Time>)
    ensures at.Keys == db.tasks.Keys
  {
    map t | t in db.tasks :: db.tasks[t].createdAt
  }

  function Limited(ids: seq<int>, limit: nat): seq<int> {
    if |ids| <= limit then ids else ids[..limit]
  }

  function Candidates(db: Tables, now: Time): (ids: seq<TaskId>)
    ensures forall i :: 0 <= i < |ids| ==> ids[i] in db.tasks
  {
    var all := Ascending(EligibleIds(db, now), CreationTimes(db));
    assert forall i :: 0 <= i < |all| ==> all[i] in all;
    Limited(all, CANDIDATE_LIMIT)
  }

  // No candidate is passed over for a younger one.
  lemma OldestFirst(db: Tables, now: Time, i: nat, t: TaskId)
    requires i < |Candidates(db, now)| && t in EligibleIds(db, now)
    requires Before(CreationTimes(db), t, Candidates(db, now)[i])
    ensures exists k :: 0 <= k < i && Candidates(db, now)[k] == t
  {
    var all := Ascending(EligibleIds(db, now), CreationTimes(db));
    AscendingIsSorted(EligibleIds(db, now), CreationTimes(db));
    var k :| 0 <= k < |all| && all[k] == t;
    assert k < i;
    assert Candidates(db, now)[k] == t;
  }

  // Every candidate is eligible, there are at most a hundred, and none is left out below that.
  lemma CandidatesAreEligible(db: Tables, now: Time)
    ensures forall t :: t in Candidates(db, now) ==> t in EligibleIds(db, now)
    ensures |Candidates(db, now)| <= 100
    ensures |Candidates(db, now)| < 100 ==> forall t :: t in EligibleIds(db, now) ==> t in Candidates(db, now)
    ensures forall i, j :: 0 <= i < j < |Candidates(db, now)| ==>
                             Before(CreationTimes(db), Candidates(db, now)[i], Candidates(db, now)[j])
  {
    AscendingIsSorted(EligibleIds(db, now), CreationTimes(db));
    var all := Ascending(EligibleIds(db, now), CreationTimes(db));
    forall t | t in Candidates(db, now) ensures t in EligibleIds(db, now) {
      assert t in all;
    }
  }

  // A task of a visible recording that can be claimed.
  predicate Claimable(db: Tables, t: TaskId, now: Time) {
    && t in db.tasks && Eligible(db.tasks[t], now)
    && db.tasks[t].recording in db.recordings && db.recordings[db.tasks[t].recording].deletedAt.None?
  }

  // The first candidate is the oldest claimable task, and there is one whenever a task is claimable.
  lemma OldestIsFirst(db: Tables, now: Time)
    ensures Candidates(db, now) == [] <==> forall t :: !Claimable(db, t, now)
    ensures Candidates(db, now) != [] ==>
              var first := Candidates(db, now)[0];
              && Claimable(db, first, now)
              && forall t :: Claimable(db, t, now) && t != first ==>
                   || db.tasks[first].createdAt < db.tasks[t].createdAt
                   || (db.tasks[first].createdAt == db.tasks[t].createdAt && first < t)
  {
    EligibleMeansClaimable(db, now);
    CandidatesAreEligible(db, now);
    if Candidates(db, now) != [] {
      var first := Candidates(db, now)[0];
      assert first in Candidates(db, now);
      forall t | t in EligibleIds(db, now) && t != first ensures Before(CreationTimes(db), first, t) {
        if Before(CreationTimes(db), t, first) {
          OldestFirst(db, now, 0, t);
        }
      }
    }
  }

  lemma EligibleMeansClaimable(db: Tables, now: Time)
    ensures forall t :: t in EligibleIds(db, now) <==> Claimable(db, t, now)
  {
  }

  lemma RowFacts(w: World)
    requires Inv(w)
    ensures ValidConfig(w.cfg) && RowsInv(w)
  {
  }

  lemma HomeOf(w: World, t: TaskId)
    requires Inv(w) && t in w.db.tasks
    ensures t in w.past.homes && w.past.homes[t] == w.db.tasks[t].recording
  {
    assert RowInv(w, t);
  }

  class TaskQueue {
    const store: S.Store

    constructor (store: S.Store)
      ensures this.store == store
    {
      this.store := store;
    }

    // The clock reading stays with the recording a transaction has locked.
    ghost method Note(r: RecordingId, now: Time)
      modifies store`past
      ensures store.View() == Stamped(old(store.View()), r, now)
    {
      if r in store.recordings {
        store.past := store.past.(latest := store.past.latest[r := now]);
      }
    }

    // The write gate: recording visible, task active, token current, lease not expired.
    method OwnedTask(lease: Lease) returns (task: Option<Task>, now: Time)
      requires store.Valid()
      modifies store`past
      ensures now == store.clock
      ensures store.View() == Stamped(old(store.View()), lease.recording, now)
      ensures task.Some? <==> Owned(old(store.View()), lease, now)
      ensures task.Some? ==> task.value == store.tasks[lease.task]
    {
      now := store.clock;
      Note(lease.recording, now);
      if lease.recording !in store.recordings || store.recordings[lease.recording].deletedAt.Some? {
        return None, now;
      }
      if lease.task !in store.tasks || store.tasks[lease.task].recording != lease.recording {
        return None, now;
      }
      var row := store.tasks[lease.task];
      if (row.status != Transcribing && row.status != Summarizing)
         || row.token != Some(lease.token) || row.expires.None? || row.expires.value <= now {
        return None, now;
      }
      return Some(row), now;
    }

    method Heartbeat(lease: Lease) returns (ok: bool)
      requires store.Valid()
      modifies store
      ensures store.Valid() && store.clock == old(store.clock)
      ensures store.View() == Next(old(store.View()), Event.Heartbeat(lease, store.clock))
      ensures ok <==> Owned(old(store.View()), lease, store.clock)
      ensures ok ==> Owned(store.View(), lease, store.clock + store.cfg.lease - 1)
    {
      hide Next, Inv;
      ghost var e := Event.Heartbeat(lease, store.clock);
      QueueShape(store.View(), e);
      Kept(store.View(), e);
      var task, now := OwnedTask(lease);
      if task.None? {
        return false;
      }
      store.tasks := store.tasks[lease.task := task.value.(expires := Some(now + store.cfg.lease))];
      assert store.past.tokens + {} == store.past.tokens && store.past.leases + {} == store.past.leases;
      return true;
    }

    // Persists the transcript before the stage advances, and returns the advanced snapshot.
    method Transcribed(lease: Lease, text: string) returns (answer: TranscriptAnswer)
      requires store.Valid()
      modifies store
      ensures store.Valid() && store.clock == old(store.clock)
      ensures answer.BlankTranscript? <==> Blank(text)
      ensures answer.BlankTranscript? ==> store.View() == old(store.View())
      ensures !answer.BlankTranscript? ==>
                store.View() == Next(old(store.View()), SaveTranscript(lease, text, store.clock))
      ensures answer.Advanced? <==> Granted(old(store.View()), SaveTranscript(lease, text, store.clock))
      ensures answer.Advanced? ==>
                && answer.lease == lease.(stage := Summarizing, transcript := Some(text))
                && answer.lease in store.past.leases
                && lease.task in store.tasks && store.tasks[lease.task].transcript == Some(text)
    {
      hide Next, Inv, Blank;
      if Blank(text) {
        return BlankTranscript;
      }
      ghost var e := SaveTranscript(lease, text, store.clock);
      QueueShape(store.View(), e);
      Kept(store.View(), e);
      var task, now := OwnedTask(lease);
      if task.None? || task.value.status != Transcribing {
        return NotOwned;
      }
      var row := task.value;
      row := row.(transcript := Some(text), lastError := None);
      row := row.(status := Summarizing, expires := Some(now + store.cfg.lease));
      store.tasks := store.tasks[lease.task := row];
      var next := lease.(stage := Summarizing, transcript := Some(text));
      store.past := store.past.(leases := store.past.leases + {next});
      assert store.past.tokens + {} == store.past.tokens;
      return Advanced(next);
    }

    method CompleteTask(lease: Lease, summary: Summary) returns (ok: bool)
      requires store.Valid()
      modifies store
      ensures store.Valid() && store.clock == old(store.clock)
      ensures store.View() == Next(old(store.View()), Event.CompleteTask(lease, summary, store.clock))
      ensures ok <==> Granted(old(store.View()), Event.CompleteTask(lease, summary, store.clock))
      ensures ok ==> lease.task in store.tasks && store.tasks[lease.task].status.Done? && store.tasks[lease.task].summary == Some(summary)
    {
      hide Next, Inv;
      ghost var e := Event.CompleteTask(lease, summary, store.clock);
      QueueShape(store.View(), e);
      Kept(store.View(), e);
      var task, now := OwnedTask(lease);
      if task.None? || task.value.status != Summarizing {
        return false;
      }
      var row := task.value;
      row := row.(summary := Some(summary), status := Done);
      row := row.(error := None, lastError := None);
      row := Finish(row, now);
      store.tasks := store.tasks[lease.task := row];
      assert store.past.tokens + {} == store.past.tokens && store.past.leases + {} == store.past.leases;
      return true;
    }

    // Schedules a retry while the budget lasts, otherwise fails the task for good.
    method FailTask(lease: Lease, failure: Failure, retryable: bool) returns (ok: bool)
      requires store.Valid()
      modifies store
      ensures store.Valid() && store.clock == old(store.clock)
      ensures store.View() == Next(old(store.View()), Event.FailTask(lease, failure, retryable, store.clock))
      ensures ok <==> Granted(old(store.View()), Event.FailTask(lease, failure, retryable, store.clock))
      ensures ok ==>
                && lease.task in old(store.tasks) && lease.task in store.tasks
                && RetryOrEnd(store.cfg.base, old(store.tasks)[lease.task], store.tasks[lease.task],
                             failure, retryable, store.clock)
    {
      hide Next, Inv, RetryOrEnd;
      ghost var e := Event.FailTask(lease, failure, retryable, store.clock);
      QueueShape(store.View(), e);
      Kept(store.View(), e);
      RowFacts(store.View());
      hide RowsInv;
      if Granted(store.View(), e) {
        FailureIsScheduled(store.View(), e);
      }
      var task, now := OwnedTask(lease);
      if task.None? || task.value.status != lease.stage {
        return false;
      }
      var row := task.value;
      if retryable && row.retries < MAX_AUTO_RETRIES {
        var delay := Delay(store.cfg.base, row.retries);
        row := row.(retries := row.retries + 1, lastError := Some(failure));
        row := row.(nextAttempt := Some(now + delay), token := None, expires := None);
      } else {
        row := row.(status := Failed, error := Some(failure), lastError := None);
        row := Finish(row, now);
      }
      store.tasks := store.tasks[lease.task := row];
      assert store.past.tokens + {} == store.past.tokens && store.past.leases + {} == store.past.leases;
      return true;
    }

    // One candidate's transaction: recheck under the locks, then hand out a fresh token.
    method ClaimCandidate(task: TaskId, recording: RecordingId, token: Token) returns (lease: Option<Lease>)
      requires store.Valid() && token !in store.past.tokens
      requires task in store.past.homes && store.past.homes[task] == recording
      modifies store
      ensures store.Valid() && store.clock == old(store.clock)
      ensures store.View() == Next(old(store.View()), ClaimTask(recording, task, token, store.clock))
      ensures lease.Some? <==> Granted(old(store.View()), ClaimTask(recording, task, token, store.clock))
      ensures lease.Some? ==>
                && lease.value in store.past.leases && lease.value.token == token
                && lease.value.task == task && lease.value.recording == recording
                && Owned(store.View(), lease.value, store.clock)
                && task in store.tasks && recording in store.recordings
                && lease.value.stage == store.tasks[task].status
                && lease.value.transcript == store.tasks[task].transcript
                && lease.value.key == store.recordings[recording].key
                && LeaseIsFresh(store.View(), lease.value)
      ensures store.past.tokens == old(store.past.tokens) + (if lease.Some? then {token} else {})
    {
      hide Next, Inv;
      ghost var e := ClaimTask(recording, task, token, store.clock);
      RowFacts(store.View());
      hide RowsInv;
      QueueShape(store.View(), e);
      Kept(store.View(), e);
      var now := store.clock;
      Note(recording, now);
      if recording !in store.recordings || store.recordings[recording].deletedAt.Some? {
        return None;
      }
      if task !in store.tasks || !Eligible(store.tasks[task], now) {
        return None;
      }
      var row := store.tasks[task];
      var retrying := row.nextAttempt != None;
      if row.status == Pending {
        row := row.(status := Transcribing, startedAt := Some(now));
      } else if !retrying {
        row := row.(recoveries := row.recoveries + 1);
      }
      row := row.(nextAttempt := None, token := Some(token), expires := Some(now + store.cfg.lease));
      store.tasks := store.tasks[task := row];
      var handed := Lease(recording, task, token, row.status, store.recordings[recording].key, row.transcript);
      store.past := store.past.(tokens := store.past.tokens + {token}, leases := store.past.leases + {handed});
      return Some(handed);
    }

    // Tries the candidates of one unlocked query in order, until one is handed out; others act in
    // between, and a row that is locked elsewhere is skipped. `spare` are tokens the caller
    // generates later; nobody else ever generates them. `tries` tells what became of the candidates
    // before the one handed out, or of all.
    method Claim(token: Token, ghost spare: set<Token>)
      returns (lease: Option<Lease>, ghost trace: seq<Event>, ghost before: World, ghost tries: seq<Try>)
      requires store.Valid() && token !in store.past.tokens && token !in spare && spare !! store.past.tokens
      modifies store
      ensures spare !! store.past.tokens
      ensures store.Valid() && store.View() == Run(old(store.View()), trace)
      ensures lease.Some? ==>
                HandedOut(old(store.View()), trace, before, store.View(), lease.value, token)
      ensures lease.None? ==> token !in store.past.tokens
      ensures var ids := Candidates(old(store.View()).db, old(store.clock));
              && TriedInVain(old(store.View()), trace, token, ids, tries)
              && (lease.None? ==> |tries| == |ids|)
              && (lease.Some? ==> |tries| < |ids| && lease.value.task == ids[|tries|])
      ensures NobodyElse(trace, token) && NoneLocked(tries) ==>
                var ids := Candidates(old(store.View()).db, old(store.clock));
                tries == [] && (lease.None? <==> ids == [])
    {
      hide Next, Inv, Run, Granted, Candidates, Owned, RowsInv, LeaseIsFresh, HandedOut, InVain, TriedInVain, NobodyElse, NoneLocked;
      ghost var mine := S.Mine(None, {token} + spare, {}, {}, {});
      ghost var start := store.View();
      trace, tries := [], [];
      before := start;
      var db := Tables(store.recordings, store.tasks);
      var ids := Candidates(db, store.clock);
      RunNothing(start);
      assert S.Unused(start, mine);
      KnownAtFirst(start, db, ids);
      NothingTried(start, token, ids);
      var i := 0;
      lease := None;
      while i < |ids| && lease.None?
        invariant 0 <= i <= |ids|
        invariant store.Valid() && store.View() == Run(start, trace) && Known(store.View(), db, ids)
        invariant lease.None? ==> S.Unused(store.View(), mine) && |tries| == i
        invariant spare !! store.past.tokens
        invariant lease.Some? ==> |tries| == i - 1 && lease.value.task == ids[i - 1]
        invariant TriedInVain(start, trace, token, ids, tries)
        invariant NobodyElse(trace, token) && NoneLocked(tries) ==>
                    tries == [] && (i == 0 ==> trace == [])
        invariant lease.Some? ==> HandedOut(start, trace, before, store.View(), lease.value, token)
        decreases |ids| - i, lease.None?
      {
        ghost var w := store.View();
        ghost var es := store.Interfere(mine);
        KnownStays(w, es, db, ids);
        RunAppend(start, trace, es);
        ghost var longer := trace + es;
        OthersShow(trace, es, token, mine);
        VainStays(start, trace, es, token, ids, tries);
        trace := longer;
        var locked: bool := *;
        if locked {
          LockedTry(start, trace, token, ids, tries);
          tries := tries + [Locked];
        } else {
          before := store.View();
          ghost var e := ClaimTask(db.tasks[ids[i]].recording, ids[i], token, store.clock);
          if trace == [] && i == 0 {
            FirstCandidateIsGranted(start, token);
          }
          OneMoreShows(trace, e, token);
          lease := ClaimCandidate(ids[i], db.tasks[ids[i]].recording, token);
          KnownStaysStep(before, e, db, ids);
          S.Extend(start, trace, e);
          VainStays(start, trace, [e], token, ids, tries);
          if lease.None? {
            NoClaimNoUse(before, e, mine);
            OneMoreTry(start, trace, e, token, ids, tries);
            tries := tries + [Refused(|trace|)];
          } else {
            HandsOut(start, trace, e, store.View(), lease.value, token);
          }
          trace := trace + [e];
        }
        i := i + 1;
      }
    }
  }

  // The lease is the outcome of the last event, a claim with this token, and it is owned.
  ghost predicate HandedOut(start: World, trace: seq<Event>, before: World, end: World, lease: Lease, token: Token) {
    && trace != []
    && before == Run(start, trace[..|trace| - 1])
    && var e := trace[|trace| - 1];
    && e.ClaimTask? && Granted(before, e) && e.token == token == lease.token
    && lease in end.past.leases && Owned(end, lease, end.now) && LeaseIsFresh(end, lease)
  }

  lemma HandsOut(start: World, trace: seq<Event>, e: Event, end: World, lease: Lease, token: Token)
    requires e.ClaimTask? && Granted(Run(start, trace), e) && e.token == token == lease.token
    requires lease in end.past.leases && Owned(end, lease, end.now) && LeaseIsFresh(end, lease)
    ensures HandedOut(start, trace + [e], Run(start, trace), end, lease, token)
  {
    hide Run, Granted, Owned, LeaseIsFresh;
    assert (trace + [e])[..|trace|] == trace;
  }

  // What became of a candidate that was not handed out: its row was locked, or its transaction,
  // at this place of the run, found it no longer eligible or visible.
  datatype Try = Locked | Refused(at: nat)

  ghost predicate TriedInVain(start: World, trace: seq<Event>, token: Token, ids: seq<TaskId>, tries: seq<Try>) {
    && |tries| <= |ids|
    && forall i :: 0 <= i < |tries| ==> InVain(start, trace, token, ids[i], tries[i])
  }

  lemma NothingTried(start: World, token: Token, ids: seq<TaskId>)
    ensures TriedInVain(start, [], token, ids, []) && NobodyElse([], token)
  {
  }

  lemma LockedTry(start: World, trace: seq<Event>, token: Token, ids: seq<TaskId>, tries: seq<Try>)
    requires TriedInVain(start, trace, token, ids, tries) && |tries| < |ids|
    ensures TriedInVain(start, trace, token, ids, tries + [Locked]) && !NoneLocked(tries + [Locked])
  {
    hide Run, Granted;
    assert (tries + [Locked])[|tries|].Locked?;
    forall i | 0 <= i <= |tries| ensures InVain(start, trace, token, ids[i], (tries + [Locked])[i]) {
      assert i < |tries| ==> InVain(start, trace, token, ids[i], tries[i]);
    }
  }

  ghost predicate InVain(start: World, trace: seq<Event>, token: Token, t: TaskId, try: Try) {
    match try
    case Locked => true
    case Refused(at) =>
      && at < |trace| && trace[at].ClaimTask? && trace[at].task == t && trace[at].token == token
      && !Granted(Run(start, trace[..at]), trace[at])
  }

  predicate NoneLocked(tries: seq<Try>) {
    forall i :: 0 <= i < |tries| ==> !tries[i].Locked?
  }

  // All there is in the run are this caller's own attempts.
  predicate NobodyElse(trace: seq<Event>, token: Token) {
    forall k :: 0 <= k < |trace| ==> trace[k].ClaimTask? && trace[k].token == token
  }

  lemma VainStays(start: World, trace: seq<Event>, es: seq<Event>, token: Token, ids: seq<TaskId>, tries: seq<Try>)
    requires TriedInVain(start, trace, token, ids, tries)
    ensures TriedInVain(start, trace + es, token, ids, tries)
  {
    hide Run, Granted;
    forall i | 0 <= i < |tries| ensures InVain(start, trace + es, token, ids[i], tries[i]) {
      assert InVain(start, trace, token, ids[i], tries[i]);
      if tries[i].Refused? {
        assert (trace + es)[..tries[i].at] == trace[..tries[i].at];
      }
    }
  }

  lemma OneMoreTry(start: World, trace: seq<Event>, e: Event, token: Token, ids: seq<TaskId>, tries: seq<Try>)
    requires TriedInVain(start, trace + [e], token, ids, tries) && |tries| < |ids|
    requires e.ClaimTask? && e.task == ids[|tries|] && e.token == token && !Granted(Run(start, trace), e)
    ensures TriedInVain(start, trace + [e], token, ids, tries + [Refused(|trace|)])
    ensures NoneLocked(tries + [Refused(|trace|)]) ==> NoneLocked(tries)
  {
    hide Run, Granted;
    forall i | 0 <= i < |tries| && NoneLocked(tries + [Refused(|trace|)]) ensures !tries[i].Locked? {
      assert !(tries + [Refused(|trace|)])[i].Locked?;
    }
    assert (trace + [e])[..|trace|] == trace;
    forall i | 0 <= i <= |tries| ensures InVain(start, trace + [e], token, ids[i], (tries + [Refused(|trace|)])[i]) {
      assert i < |tries| ==> InVain(start, trace + [e], token, ids[i], tries[i]);
    }
  }

  lemma OneMoreShows(trace: seq<Event>, e: Event, token: Token)
    ensures NobodyElse(trace + [e], token) ==> NobodyElse(trace, token)
  {
    if NobodyElse(trace + [e], token) {
      forall k | 0 <= k < |trace| ensures trace[k].ClaimTask? && trace[k].token == token {
        assert (trace + [e])[k] == trace[k];
      }
    }
  }

  // Undisturbed, the oldest eligible task is handed out.
  lemma FirstCandidateIsGranted(w: World, token: Token)
    requires Inv(w) && token !in w.past.tokens && Candidates(w.db, w.now) != []
    ensures var t := Candidates(w.db, w.now)[0];
            t in w.db.tasks && Granted(w, ClaimTask(w.db.tasks[t].recording, t, token, w.now))
  {
    var t := Candidates(w.db, w.now)[0];
    CandidatesAreEligible(w.db, w.now);
    assert t in Candidates(w.db, w.now);
    hide Candidates;
    assert t in EligibleIds(w.db, w.now);
    assert RowInv(w, t);
    ClaimSucceeds(w, t, token, w.now);
  }

  lemma OthersShow(trace: seq<Event>, es: seq<Event>, token: Token, mine: S.Mine)
    requires S.AllAvoid(es, mine) && token in mine.tokens
    ensures NobodyElse(trace + es, token) ==> es == [] && NobodyElse(trace, token)
  {
    if es != [] {
      assert (trace + es)[|trace|] == es[0] && S.Avoids(es[0], mine);
    } else {
      assert trace + es == trace;
    }
  }

  // The candidates were once in the table, under the recordings the query joined them to.
  ghost predicate Known(w: World, db: Tables, ids: seq<TaskId>) {
    forall i :: 0 <= i < |ids| ==>
      && ids[i] in db.tasks
      && ids[i] in w.past.homes && w.past.homes[ids[i]] == db.tasks[ids[i]].recording
  }

  lemma KnownAtFirst(w: World, db: Tables, ids: seq<TaskId>)
    requires Inv(w) && db == w.db && forall i :: 0 <= i < |ids| ==> ids[i] in db.tasks
    ensures Known(w, db, ids)
  {
    forall i | 0 <= i < |ids|
      ensures ids[i] in w.past.homes && w.past.homes[ids[i]] == db.tasks[ids[i]].recording
    {
      HomeOf(w, ids[i]);
    }
  }

  lemma NoClaimNoUse(w: World, e: Event, mine: S.Mine)
    requires Inv(w) && S.Unused(w, mine) && e.ClaimTask? && !Granted(w, e)
    ensures S.Unused(Next(w, e), mine)
  {
    QueueShape(w, e);
  }

  lemma HomeStays(w: World, e: Event, t: TaskId)
    requires Inv(w) && t in w.past.homes
    ensures t in Next(w, e).past.homes && Next(w, e).past.homes[t] == w.past.homes[t]
  {
    RowsKept(w, e);
  }

  lemma KnownStaysStep(w: World, e: Event, db: Tables, ids: seq<TaskId>)
    requires Inv(w) && Known(w, db, ids)
    ensures Known(Next(w, e), db, ids)
  {
    forall i | 0 <= i < |ids|
      ensures ids[i] in Next(w, e).past.homes && Next(w, e).past.homes[ids[i]] == db.tasks[ids[i]].recording
    {
      HomeStays(w, e, ids[i]);
    }
  }

  lemma {:induction false} KnownStays(w: World, es: seq<Event>, db: Tables, ids: seq<TaskId>)
    requires Inv(w) && Known(w, db, ids)
    ensures Known(Run(w, es), db, ids)
    decreases |es|
  {
    if es != [] {
      Kept(w, es[0]);
      KnownStaysStep(w, es[0], db, ids);
      KnownStays(Next(w, es[0]), es[1..], db, ids);
    }
  }
}
