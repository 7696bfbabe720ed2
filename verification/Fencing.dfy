/** Lease fencing over whole runs, for any number of workers replaying any lease ever issued. */
module Fencing {
  import opened Domain
  import opened TaskRow
  import opened System
  import opened Shapes
  import opened Rows

  // The write gate every lease operation passes.
  predicate Owned(w: World, lease: Lease, at: Time) {
    && Visible(w, lease.recording)
    && lease.task in w.db.tasks
    && w.db.tasks[lease.task].recording == lease.recording
    && Owns(w.db.tasks[lease.task], lease.token, at)
  }

  // An issued token that can no longer pass the gate.
  predicate Dead(w: World, lease: Lease) {
    lease.token in w.past.tokens && !Owned(w, lease, Latest(w, lease.recording))
  }

  // Ownership by an issued token can only be inherited, never regained.
  lemma OwnershipIsInherited(w: World, e: Event, lease: Lease)
    requires RowsInv(w) && lease.token in w.past.tokens
    requires Owned(Next(w, e), lease, Latest(Next(w, e), lease.recording))
    ensures Owned(w, lease, Latest(w, lease.recording))
  {
    RowsKept(w, e);
    assert RowStep(w, e, Next(w, e), lease.task);
    assert RowInv(w, lease.task);
  }

  lemma DeadStaysDead(w: World, e: Event, lease: Lease)
    requires RowsInv(w) && Dead(w, lease)
    ensures Dead(Next(w, e), lease)
  {
    RowsKept(w, e);
    if Owned(Next(w, e), lease, Latest(Next(w, e), lease.recording)) {
      OwnershipIsInherited(w, e, lease);
    }
  }

  lemma {:induction false} DeadForever(w: World, es: seq<Event>, lease: Lease)
    requires RowsInv(w) && Dead(w, lease)
    ensures Dead(Run(w, es), lease)
    decreases |es|
  {
    if es != [] {
      DeadStaysDead(w, es[0], lease);
      RowsKept(w, es[0]);
      DeadForever(Next(w, es[0]), es[1..], lease);
    }
  }

  // A token that fails the gate once fails it forever: the failed check itself is the proof.
  lemma FailedGateKills(w: World, e: Event)
    requires RowsInv(w) && IsLeaseEvent(e) && Enabled(w, e)
    requires e.lease.token in w.past.tokens && !Owned(w, e.lease, e.at)
    ensures Dead(Next(w, e), e.lease)
  {
    assert !Granted(w, e);
    QueueShape(w, e);
  }

  // A new claim ends every earlier ownership of the task.
  lemma ClaimSupersedes(w: World, e: Event, lease: Lease)
    requires RowsInv(w) && e.ClaimTask? && Granted(w, e)
    requires lease.task == e.task && lease.token in w.past.tokens
    ensures Dead(Next(w, e), lease)
  {
    RowsKept(w, e);
    assert RowStep(w, e, Next(w, e), e.task);
  }

  // A late call by a dead holder, however much later, changes no row.
  lemma LateCallChangesNothing(w: World, es: seq<Event>, e: Event)
    requires RowsInv(w) && IsLeaseEvent(e) && Dead(w, e.lease)
    ensures Run(w, es + [e]).db == Run(w, es).db
  {
    var end := Run(w, es);
    RowsAlways(w, es);
    DeadForever(w, es, e.lease);
    RunAppend(w, es, [e]);
    assert Run(end, [e]) == Next(end, e) by {
      assert [e][1..] == [];
      assert Run(Next(end, e), []) == Next(end, e);
    }
    GateNeedsLife(end, e);
    QueueShape(end, e);
  }

  lemma GateNeedsLife(w: World, e: Event)
    requires RowsInv(w) && IsLeaseEvent(e) && Dead(w, e.lease)
    ensures !Granted(w, e)
  {
  }

  // The token of the last successful claim of a task within a run.
  ghost function LastClaim(w: World, es: seq<Event>, t: TaskId): Option<Token>
    decreases |es|
  {
    if es == [] then None
    else
      var rest := LastClaim(Next(w, es[0]), es[1..], t);
      if rest.Some? then rest
      else if Granted(w, es[0]) && es[0].ClaimTask? && es[0].task == t then Some(es[0].token)
      else None
  }

  // The token a row holds is the one of the last claim.
  lemma {:induction false} TokenIsLastClaim(w: World, es: seq<Event>, t: TaskId)
    requires RowsInv(w)
    requires t in Run(w, es).db.tasks && Run(w, es).db.tasks[t].token.Some?
    ensures var last := LastClaim(w, es, t);
            if last.Some? then Run(w, es).db.tasks[t].token == last
            else t in w.db.tasks && w.db.tasks[t].token == Run(w, es).db.tasks[t].token
    decreases |es|
  {
    if es != [] {
      var w1 := Next(w, es[0]);
      RowsKept(w, es[0]);
      TokenIsLastClaim(w1, es[1..], t);
      if LastClaim(w1, es[1..], t).None? {
        assert RowStep(w, es[0], w1, t);
      }
    }
  }

  // Every accepted result in a run of the service was written by the latest claimant.
  lemma OnlyLatestClaimantWrites(w: World, es: seq<Event>, e: Event)
    requires Start(w) && IsLeaseEvent(e) && Granted(Run(w, es), e)
    ensures LastClaim(w, es, e.lease.task) == Some(e.lease.token)
  {
    StartRows(w);
    TokenIsLastClaim(w, es, e.lease.task);
  }

  lemma StartRows(w: World)
    requires Start(w)
    ensures RowsInv(w)
  {
  }
}
