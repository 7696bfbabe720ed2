/** When heartbeats keep a lease alive: exactly when, and for which configurations always. */
module Heartbeats {
  import opened Domain
  import opened TaskRow
  import opened System
  import opened Shapes
  import opened Rows
  import opened Fencing

  // The lease is held, and was last extended at `last`.
  predicate Held(w: World, lease: Lease, last: Time) {
    && Visible(w, lease.recording)
    && lease.task in w.db.tasks
    && var row := w.db.tasks[lease.task];
    && row.recording == lease.recording
    && Active(row.status) && row.token == Some(lease.token)
    && row.expires == Some(last + w.cfg.lease)
    && last <= Latest(w, lease.recording)
  }

  // The lease is over: it ran out before the last clock reading on its recording.
  predicate Lost(w: World, lease: Lease, last: Time) {
    Visible(w, lease.recording) && Dead(w, lease) && last + w.cfg.lease <= Latest(w, lease.recording)
  }

  predicate HeldOrLost(w: World, lease: Lease, last: Time) {
    lease.token in w.past.tokens && (Held(w, lease, last) || Lost(w, lease, last))
  }

  // Snapshots of the same ownership, whatever their stage.
  predicate SameOwner(one: Lease, other: Lease) {
    one.token == other.token && one.task == other.task && one.recording == other.recording
  }

  predicate IsRenewal(e: Event, lease: Lease) {
    e.Heartbeat? && SameOwner(e.lease, lease)
  }

  // The pipeline finishes, or the recording is deleted.
  predicate Ends(w: World, e: Event, lease: Lease) {
    || ((e.CompleteTask? || e.FailTask?) && e.lease.token == lease.token && Granted(w, e))
    || (e.Mark? && e.recording == lease.recording)
  }

  ghost predicate Unended(w: World, es: seq<Event>, lease: Lease)
    decreases |es|
  {
    es != [] ==> !Ends(w, es[0], lease) && Unended(Next(w, es[0]), es[1..], lease)
  }

  // Renewals extend the lease, and so does a persisted transcript.
  predicate Extends(w: World, e: Event, lease: Lease) {
    (e.Heartbeat? || e.SaveTranscript?) && Granted(w, e) && SameOwner(e.lease, lease)
  }

  function Extended(w: World, e: Event, lease: Lease, last: Time): Time {
    if Extends(w, e, lease) then e.at else last
  }

  // The instant of the last extension in a run.
  ghost function LastExtension(w: World, es: seq<Event>, lease: Lease, last: Time): Time
    decreases |es|
  {
    if es == [] then last else LastExtension(Next(w, es[0]), es[1..], lease, Extended(w, es[0], lease, last))
  }

  // Every renewal reads the clock before the running lease is over.
  ghost predicate OnTime(w: World, es: seq<Event>, lease: Lease, last: Time)
    decreases |es|
  {
    es != [] ==>
      && (IsRenewal(es[0], lease) && Enabled(w, es[0]) ==> es[0].at < last + w.cfg.lease)
      && OnTime(Next(w, es[0]), es[1..], lease, Extended(w, es[0], lease, last))
  }

  ghost predicate NeverRefused(w: World, es: seq<Event>, lease: Lease)
    decreases |es|
  {
    es != [] ==>
      && (IsRenewal(es[0], lease) && Enabled(w, es[0]) ==> Granted(w, es[0]))
      && NeverRefused(Next(w, es[0]), es[1..], lease)
  }

  // ---------- One step ----------

  // A claim starts the lease it hands out.
  lemma ClaimIsHeld(w: World, e: Event, lease: Lease)
    requires RowsInv(w) && e.ClaimTask? && Granted(w, e)
    requires lease.token == e.token && lease.task == e.task && lease.recording == e.recording
    ensures HeldOrLost(Next(w, e), lease, e.at) && Held(Next(w, e), lease, e.at)
  {
    QueueShape(w, e);
  }

  // Only a deletion of the recording can hide it, and its clock readings only grow.
  lemma ClockMoves(w: World, e: Event, lease: Lease)
    requires RowsInv(w) && Visible(w, lease.recording) && !Ends(w, e, lease)
    ensures Visible(Next(w, e), lease.recording) && RowsInv(Next(w, e)) && Next(w, e).cfg == w.cfg
    ensures lease.token in w.past.tokens ==> lease.token in Next(w, e).past.tokens
    ensures Latest(w, lease.recording) <= Latest(Next(w, e), lease.recording)
    ensures IsQueueEvent(e) && QueueRecording(e) == lease.recording && Enabled(w, e) ==>
              Latest(w, lease.recording) <= e.at == Latest(Next(w, e), lease.recording)
  {
    RowsKept(w, e);
    RecordingShape(w, e, lease.recording);
    if IsQueueEvent(e) {
      QueueShape(w, e);
    }
  }

  lemma LostStays(w: World, e: Event, lease: Lease, last: Time)
    requires RowsInv(w) && Lost(w, lease, last) && !Ends(w, e, lease)
    ensures Lost(Next(w, e), lease, last) && Extended(w, e, lease, last) == last
    ensures IsRenewal(e, lease) && Enabled(w, e) ==> !Granted(w, e) && last + w.cfg.lease <= e.at
  {
    ClockMoves(w, e, lease);
    DeadStaysDead(w, e, lease);
    LostIsNotGranted(w, e, lease);
  }

  lemma LostIsNotGranted(w: World, e: Event, lease: Lease)
    requires RowsInv(w) && Dead(w, lease)
    ensures IsLeaseEvent(e) && SameOwner(e.lease, lease) ==> !Granted(w, e)
  {
  }

  // A renewal of a held lease is accepted exactly if it reads the clock in time.
  lemma RenewalIsExact(w: World, e: Event, lease: Lease, last: Time)
    requires Held(w, lease, last) && IsRenewal(e, lease) && Enabled(w, e)
    ensures Granted(w, e) <==> e.at < last + w.cfg.lease
  {
  }

  // What a step leaves of a held lease: the lease with its extension, or, once it ran out and
  // another worker claimed the task, nothing.
  lemma HeldStep(w: World, e: Event, lease: Lease, last: Time)
    requires RowsInv(w) && Held(w, lease, last) && lease.token in w.past.tokens && !Ends(w, e, lease)
    ensures if Granted(w, e) && e.ClaimTask? && e.task == lease.task
            then Lost(Next(w, e), lease, last) && Extended(w, e, lease, last) == last
            else Held(Next(w, e), lease, Extended(w, e, lease, last))
    ensures last <= Extended(w, e, lease, last)
  {
    hide Next, RowsInv, Lost, Held;
    Watched(w, lease, last);
    ClockMoves(w, e, lease);
    if Granted(w, e) && e.ClaimTask? && e.task == lease.task {
      ClaimedAway(w, e, lease, last);
    } else if Extends(w, e, lease) {
      HeldExtended(w, e, lease, last);
    } else {
      HeldUntouched(w, e, lease, last);
    }
  }

  lemma ClaimedAway(w: World, e: Event, lease: Lease, last: Time)
    requires RowsInv(w) && Held(w, lease, last) && lease.token in w.past.tokens
    requires Granted(w, e) && e.ClaimTask? && e.task == lease.task
    ensures Lost(Next(w, e), lease, last)
  {
    ClaimSupersedes(w, e, lease);
    ClockMoves(w, e, lease);
    assert RowInv(w, lease.task);
  }

  lemma HeldExtended(w: World, e: Event, lease: Lease, last: Time)
    requires RowsInv(w) && Held(w, lease, last) && Extends(w, e, lease)
    ensures Held(Next(w, e), lease, e.at) && last <= e.at
  {
    ClockMoves(w, e, lease);
    QueueShape(w, e);
  }

  lemma HeldUntouched(w: World, e: Event, lease: Lease, last: Time)
    requires RowsInv(w) && Held(w, lease, last) && !Ends(w, e, lease) && !Extends(w, e, lease)
    requires !(Granted(w, e) && e.ClaimTask? && e.task == lease.task)
    ensures Held(Next(w, e), lease, last)
  {
    ClockMoves(w, e, lease);
    RowsKept(w, e);
    assert RowStep(w, e, Next(w, e), lease.task);
  }

  lemma HeldOrLostStep(w: World, e: Event, lease: Lease, last: Time)
    requires RowsInv(w) && HeldOrLost(w, lease, last) && !Ends(w, e, lease)
    ensures RowsInv(Next(w, e)) && Next(w, e).cfg == w.cfg
    ensures HeldOrLost(Next(w, e), lease, Extended(w, e, lease, last))
    ensures last <= Extended(w, e, lease, last)
    ensures IsRenewal(e, lease) && Enabled(w, e) ==> (Granted(w, e) <==> e.at < last + w.cfg.lease)
  {
    hide Next, RowsInv, Held, Lost, Granted, Extended, Dead, Owned;
    Watched(w, lease, last);
    ClockMoves(w, e, lease);
    if Lost(w, lease, last) {
      LostStays(w, e, lease, last);
    } else {
      HeldStep(w, e, lease, last);
      if IsRenewal(e, lease) && Enabled(w, e) {
        RenewalIsExact(w, e, lease, last);
      }
    }
  }

  lemma Watched(w: World, lease: Lease, last: Time)
    requires Held(w, lease, last) || Lost(w, lease, last)
    ensures Visible(w, lease.recording)
  {
  }

  // ---------- Whole runs ----------

  // Over any run, against any number of other workers: no renewal is refused if and only if each
  // reads the clock before the lease last extended is over.
  lemma {:induction false} NeverRefusedExactly(w: World, es: seq<Event>, lease: Lease, last: Time)
    requires RowsInv(w) && HeldOrLost(w, lease, last) && Unended(w, es, lease)
    ensures NeverRefused(w, es, lease) <==> OnTime(w, es, lease, last)
    decreases |es|
  {
    hide Next, RowsInv, HeldOrLost, Granted, Extended, Ends;
    if es != [] {
      HeldOrLostStep(w, es[0], lease, last);
      NeverRefusedExactly(Next(w, es[0]), es[1..], lease, Extended(w, es[0], lease, last));
    }
  }

  lemma {:induction false} HeldOrLostAtEnd(w: World, es: seq<Event>, lease: Lease, last: Time)
    requires RowsInv(w) && HeldOrLost(w, lease, last) && Unended(w, es, lease)
    ensures RowsInv(Run(w, es)) && Run(w, es).cfg == w.cfg
    ensures HeldOrLost(Run(w, es), lease, LastExtension(w, es, lease, last))
    decreases |es|
  {
    hide Next, RowsInv, HeldOrLost, Granted, Extended, Ends;
    if es != [] {
      HeldOrLostStep(w, es[0], lease, last);
      HeldOrLostAtEnd(Next(w, es[0]), es[1..], lease, Extended(w, es[0], lease, last));
    }
  }

  // From the last clock reading on, the lease is owned, and nobody can claim its task, exactly
  // until a lease after its last extension.
  lemma LeaseIsContinuous(w: World, es: seq<Event>, lease: Lease, last: Time, at: Time)
    requires RowsInv(w) && HeldOrLost(w, lease, last) && Unended(w, es, lease)
    requires Latest(Run(w, es), lease.recording) <= at
    ensures Owned(Run(w, es), lease, at) <==> at < LastExtension(w, es, lease, last) + w.cfg.lease
    ensures Owned(Run(w, es), lease, at) ==> !Eligible(Run(w, es).db.tasks[lease.task], at)
  {
    HeldOrLostAtEnd(w, es, lease, last);
    OwnedExactly(Run(w, es), lease, LastExtension(w, es, lease, last), at);
  }

  lemma OwnedExactly(w: World, lease: Lease, last: Time, at: Time)
    requires RowsInv(w) && HeldOrLost(w, lease, last) && Latest(w, lease.recording) <= at
    ensures Owned(w, lease, at) <==> at < last + w.cfg.lease
    ensures Owned(w, lease, at) ==> !Eligible(w.db.tasks[lease.task], at)
  {
  }

  // ---------- The heartbeat loop ----------

  // One turn of the loop: when its sleep was over and when its transaction returned.
  datatype Turn = Turn(wake: Time, reply: Time)

  // The renewals of the run are the turns of one loop that sleeps `interval` after each reply.
  // `read` is the clock reading of the transaction before, `back` its reply. From one reading to
  // the next, the end of the one transaction and the start of the other take less than `slack`.
  ghost predicate Scheduled(w: World, es: seq<Event>, lease: Lease, interval: Time, slack: Time,
                            read: Time, back: Time, turns: seq<Turn>)
    decreases |es|
  {
    if es == [] then turns == []
    else if IsRenewal(es[0], lease) && Enabled(w, es[0]) then
      && turns != []
      && turns[0].wake == back + interval && turns[0].wake <= es[0].at <= turns[0].reply
      && (back - read) + (es[0].at - turns[0].wake) < slack
      && Scheduled(Next(w, es[0]), es[1..], lease, interval, slack, es[0].at, turns[0].reply, turns[1..])
    else Scheduled(Next(w, es[0]), es[1..], lease, interval, slack, read, back, turns)
  }

  // Such a loop whose every transaction returns less than `bound` after its wake-up.
  ghost predicate Paced(w: World, es: seq<Event>, lease: Lease, interval: Time, bound: Time,
                        back: Time, turns: seq<Turn>)
    decreases |es|
  {
    if es == [] then turns == []
    else if IsRenewal(es[0], lease) && Enabled(w, es[0]) then
      && turns != []
      && turns[0].wake == back + interval && turns[0].wake <= es[0].at <= turns[0].reply
      && turns[0].reply - turns[0].wake < bound
      && Paced(Next(w, es[0]), es[1..], lease, interval, bound, turns[0].reply, turns[1..])
    else Paced(Next(w, es[0]), es[1..], lease, interval, bound, back, turns)
  }

  lemma {:induction false} PacedIsScheduled(w: World, es: seq<Event>, lease: Lease, interval: Time, bound: Time,
                                            read: Time, back: Time, turns: seq<Turn>)
    requires Paced(w, es, lease, interval, bound, back, turns) && back - read < bound
    ensures Scheduled(w, es, lease, interval, 2 * bound - 1, read, back, turns)
    decreases |es|
  {
    hide Next;
    if es != [] {
      if IsRenewal(es[0], lease) && Enabled(w, es[0]) {
        PacedIsScheduled(Next(w, es[0]), es[1..], lease, interval, bound, es[0].at, turns[0].reply, turns[1..]);
      } else {
        PacedIsScheduled(Next(w, es[0]), es[1..], lease, interval, bound, read, back, turns);
      }
    }
  }

  // A lease of the interval and the slack keeps every renewal on time.
  lemma {:induction false} ScheduledIsOnTime(w: World, es: seq<Event>, lease: Lease, last: Time, interval: Time,
                                             slack: Time, read: Time, back: Time, turns: seq<Turn>)
    requires RowsInv(w) && HeldOrLost(w, lease, last) && Unended(w, es, lease)
    requires Scheduled(w, es, lease, interval, slack, read, back, turns)
    requires read <= last && interval + slack <= w.cfg.lease
    ensures OnTime(w, es, lease, last)
    decreases |es|
  {
    hide Next, RowsInv, HeldOrLost, Ends, Granted;
    if es != [] {
      var e, w1 := es[0], Next(w, es[0]);
      var last1 := Extended(w, e, lease, last);
      HeldOrLostStep(w, e, lease, last);
      if IsRenewal(e, lease) && Enabled(w, e) {
        RenewalExtends(w, e, lease);
        ScheduledIsOnTime(w1, es[1..], lease, last1, interval, slack, e.at, turns[0].reply, turns[1..]);
      } else {
        ScheduledIsOnTime(w1, es[1..], lease, last1, interval, slack, read, back, turns);
      }
    }
  }

  lemma RenewalExtends(w: World, e: Event, lease: Lease)
    requires IsRenewal(e, lease) && Granted(w, e)
    ensures Extends(w, e, lease)
  {
  }

  // With a lease of three intervals it is enough that the end of one transaction and the start of
  // the next take less than two intervals together.
  lemma ThreeIntervalsSuffice(w: World, es: seq<Event>, lease: Lease, last: Time, interval: Time,
                              back: Time, turns: seq<Turn>)
    requires RowsInv(w) && HeldOrLost(w, lease, last) && Unended(w, es, lease)
    requires Scheduled(w, es, lease, interval, 2 * interval, last, back, turns)
    requires w.cfg.lease >= 3 * interval
    ensures NeverRefused(w, es, lease)
  {
    ScheduledIsOnTime(w, es, lease, last, interval, 2 * interval, last, back, turns);
    NeverRefusedExactly(w, es, lease, last);
  }

  // The reply of the last transaction of the loop.
  function LastReply(back: Time, turns: seq<Turn>): Time {
    if turns == [] then back else turns[|turns| - 1].reply
  }

  lemma {:induction false} RepliesAreRecent(w: World, es: seq<Event>, lease: Lease, last: Time, interval: Time,
                                            bound: Time, back: Time, turns: seq<Turn>)
    requires RowsInv(w) && HeldOrLost(w, lease, last) && Unended(w, es, lease)
    requires Paced(w, es, lease, interval, bound, back, turns) && back - last < bound
    requires interval + 2 * (bound - 1) < w.cfg.lease
    ensures LastReply(back, turns) - LastExtension(w, es, lease, last) < bound
    decreases |es|
  {
    hide Next, RowsInv, HeldOrLost, Ends, Granted;
    if es != [] {
      var e, w1 := es[0], Next(w, es[0]);
      var last1 := Extended(w, e, lease, last);
      HeldOrLostStep(w, e, lease, last);
      if IsRenewal(e, lease) && Enabled(w, e) {
        RenewalExtends(w, e, lease);
        RepliesAreRecent(w1, es[1..], lease, last1, interval, bound, turns[0].reply, turns[1..]);
      } else {
        RepliesAreRecent(w1, es[1..], lease, last1, interval, bound, back, turns);
      }
    }
  }

  // With a lease longer than the interval and two such transactions, no renewal is ever refused,
  // and the lease is owned until the next renewal reads the clock, however late in its
  // transaction it does.
  lemma LongLeaseSurvives(w: World, es: seq<Event>, lease: Lease, last: Time, interval: Time,
                          bound: Time, back: Time, turns: seq<Turn>, at: Time)
    requires RowsInv(w) && HeldOrLost(w, lease, last) && Unended(w, es, lease)
    requires Paced(w, es, lease, interval, bound, back, turns) && back - last < bound
    requires interval + 2 * (bound - 1) < w.cfg.lease
    ensures NeverRefused(w, es, lease)
    ensures Latest(Run(w, es), lease.recording) <= at < LastReply(back, turns) + interval + bound ==>
              Owned(Run(w, es), lease, at) && !Eligible(Run(w, es).db.tasks[lease.task], at)
  {
    PacedIsScheduled(w, es, lease, interval, bound, last, back, turns);
    ScheduledIsOnTime(w, es, lease, last, interval, 2 * bound - 1, last, back, turns);
    NeverRefusedExactly(w, es, lease, last);
    RepliesAreRecent(w, es, lease, last, interval, bound, back, turns);
    if Latest(Run(w, es), lease.recording) <= at < LastReply(back, turns) + interval + bound {
      LeaseIsContinuous(w, es, lease, last, at);
    }
  }
}
