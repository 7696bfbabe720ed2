/** What is conserved and what runs out over whole runs: claims, work, budget and time. */
module History {
  import opened Domain
  import opened Backoff
  import opened TaskRow
  import opened System
  import opened Shapes
  import opened Rows
  import opened Fencing

  // ---------- Rows come and go once ----------

  lemma {:induction false} GoneForever(w: World, es: seq<Event>, t: TaskId)
    requires RowsInv(w) && t in w.past.usedTasks && t !in w.db.tasks
    ensures t !in Run(w, es).db.tasks
    decreases |es|
  {
    if es != [] {
      RowsKept(w, es[0]);
      assert RowStep(w, es[0], Next(w, es[0]), t);
      GoneForever(Next(w, es[0]), es[1..], t);
    }
  }

  // A row at the end of a run was there all along, or was born pending on the way.
  lemma FirstStep(w: World, es: seq<Event>, t: TaskId)
    requires RowsInv(w) && es != [] && t in Run(w, es).db.tasks
    ensures t in w.db.tasks ==> t in Next(w, es[0]).db.tasks
    ensures RowsInv(Next(w, es[0])) && RowStep(w, es[0], Next(w, es[0]), t)
  {
    RowsKept(w, es[0]);
    var w1 := Next(w, es[0]);
    assert RowStep(w, es[0], w1, t);
    if t in w.db.tasks && t !in w1.db.tasks {
      assert RowInv(w, t);
      GoneForever(w1, es[1..], t);
    }
  }

  // ---------- Conservation of claims ----------

  ghost function CountClaims(w: World, es: seq<Event>, t: TaskId): nat
    decreases |es|
  {
    if es == [] then 0
    else
      (if Granted(w, es[0]) && es[0].ClaimTask? && es[0].task == t then 1 else 0)
      + CountClaims(Next(w, es[0]), es[1..], t)
  }

  function ClaimsAt(db: Tables, t: TaskId): int {
    if t in db.tasks then ClaimsOf(db.tasks[t]) else 0
  }

  // In every run the row itself accounts for every successful claim of the task.
  lemma {:induction false} ClaimConservation(w: World, es: seq<Event>, t: TaskId)
    requires RowsInv(w) && t in Run(w, es).db.tasks
    ensures ClaimsAt(Run(w, es).db, t) == ClaimsAt(w.db, t) + CountClaims(w, es, t)
    decreases |es|
  {
    if es != [] {
      var w1 := Next(w, es[0]);
      FirstStep(w, es, t);
      ClaimConservation(w1, es[1..], t);
      if t in w.db.tasks {
        assert RowInv(w, t);
        if Granted(w, es[0]) && QueueTask(es[0]) == t {
          ClaimsCounted(w.cfg, w.db.tasks[t], QueueOp(es[0]), es[0].at);
        }
      }
    }
  }

  // The law as the columns show it.
  lemma ClaimLaw(w: World, es: seq<Event>, t: TaskId)
    requires Start(w) && t in Run(w, es).db.tasks
    ensures var row := Run(w, es).db.tasks[t];
            CountClaims(w, es, t) ==
            One(row.status != Pending) + row.retries - One(row.nextAttempt != None) + row.recoveries
  {
    StartRows(w);
    ClaimConservation(w, es, t);
  }

  // ---------- Bounded work ----------

  ghost function CountResults(w: World, es: seq<Event>, t: TaskId): nat
    decreases |es|
  {
    if es == [] then 0
    else
      (if Granted(w, es[0]) && IsResult(QueueOp(es[0])) && QueueTask(es[0]) == t then 1 else 0)
      + CountResults(Next(w, es[0]), es[1..], t)
  }

  const ALL_WORK := 2 + MAX_AUTO_RETRIES

  function WorkAt(db: Tables, t: TaskId): int {
    if t in db.tasks then WorkLeft(db.tasks[t]) else ALL_WORK
  }

  // Every accepted result uses up a stage or a retry, however long the run is.
  lemma {:induction false} WorkIsSpent(w: World, es: seq<Event>, t: TaskId)
    requires RowsInv(w) && t in Run(w, es).db.tasks
    ensures 0 <= WorkAt(Run(w, es).db, t) <= WorkAt(w.db, t) - CountResults(w, es, t)
    decreases |es|
  {
    if es == [] {
      assert RowInv(w, t);
    } else {
      var w1 := Next(w, es[0]);
      FirstStep(w, es, t);
      WorkIsSpent(w1, es[1..], t);
      if t in w.db.tasks {
        assert RowInv(w, t);
        if Granted(w, es[0]) && QueueTask(es[0]) == t {
          WorkShrinks(w.cfg, w.db.tasks[t], QueueOp(es[0]), es[0].at);
        }
      }
    }
  }

  lemma AtMostFiveResults(w: World, es: seq<Event>, t: TaskId)
    requires Start(w) && t in Run(w, es).db.tasks
    ensures CountResults(w, es, t) <= 5
  {
    StartRows(w);
    WorkIsSpent(w, es, t);
  }

  // A terminal row is never written again.
  lemma {:induction false} TerminalIsFinal(w: World, es: seq<Event>, t: TaskId)
    requires RowsInv(w) && t in w.db.tasks && Terminal(w.db.tasks[t].status)
    requires t in Run(w, es).db.tasks
    ensures Run(w, es).db.tasks[t] == w.db.tasks[t]
    decreases |es|
  {
    if es != [] {
      FirstStep(w, es, t);
      TerminalIsFinal(Next(w, es[0]), es[1..], t);
    }
  }

  // ---------- The retry budget, for the workers of this repository ----------

  // Worker._fail always asks for a retry.
  predicate AlwaysRetryable(es: seq<Event>) {
    forall i :: 0 <= i < |es| && es[i].FailTask? ==> es[i].retryable
  }

  predicate FailedMeansSpent(w: World) {
    forall t :: t in w.db.tasks && w.db.tasks[t].status.Failed? ==> w.db.tasks[t].retries == MAX_AUTO_RETRIES
  }

  lemma {:induction false} BudgetIsSpent(w: World, es: seq<Event>)
    requires RowsInv(w) && FailedMeansSpent(w) && AlwaysRetryable(es)
    ensures RowsInv(Run(w, es)) && FailedMeansSpent(Run(w, es))
    decreases |es|
  {
    if es != [] {
      var w1 := Next(w, es[0]);
      RowsKept(w, es[0]);
      forall t | t in w1.db.tasks && w1.db.tasks[t].status.Failed?
        ensures w1.db.tasks[t].retries == MAX_AUTO_RETRIES
      {
        assert RowStep(w, es[0], w1, t);
        assert t in w.db.tasks ==> RowInv(w, t);
      }
      assert AlwaysRetryable(es[1..]) by {
        forall i | 0 <= i < |es[1..]| && es[1..][i].FailTask? ensures es[1..][i].retryable {
          assert es[1..][i] == es[i + 1];
        }
      }
      BudgetIsSpent(w1, es[1..]);
    }
  }

  // A task these workers give up on has waited through all three backoffs. That is seven bases
  // when rounding does not shorten them, and never more than 1.5 microseconds less.
  lemma FailureTakesSevenBases(w: World, es: seq<Event>, t: TaskId)
    requires Start(w) && AlwaysRetryable(es)
    requires t in Run(w, es).db.tasks && Run(w, es).db.tasks[t].status.Failed?
    ensures var row := Run(w, es).db.tasks[t];
            && row.retries == MAX_AUTO_RETRIES
            && row.startedAt.Some? && row.finishedAt.Some?
            && var took := row.finishedAt.value - row.startedAt.value;
            && took >= Waited(w.cfg.base, 3)
            && took as real >= 7.0 * w.cfg.base - 1.5
            && (Enough(w.cfg.base) ==> took as real >= 7.0 * w.cfg.base)
  {
    StartRows(w);
    BudgetIsSpent(w, es);
    PastGrows(w, es);
    assert RowInv(Run(w, es), t);
    var base := w.cfg.base;
    WaitedGeometric(base, 3);
    assert Scaled(base, 3) == 8.0 * base by {
      assert Scaled(base, 1) == 2.0 * base;
      assert Scaled(base, 2) == 4.0 * base;
    }
    SevenBasesExactly(base);
  }

  // A retry waiting for its instant is claimed no earlier, and a later claim still respects it.
  lemma BackoffIsHonoured(w: World, e: Event)
    requires RowsInv(w) && Granted(w, e) && w.db.tasks[QueueTask(e)].startedAt.Some?
    ensures var row := w.db.tasks[QueueTask(e)];
            e.at >= row.startedAt.value + Waited(w.cfg.base, row.retries)
    ensures e.ClaimTask? && w.db.tasks[e.task].nextAttempt.Some? ==> e.at >= w.db.tasks[e.task].nextAttempt.value
  {
    assert RowInv(w, QueueTask(e));
  }

  // ---------- No task is lost ----------

  function Longest(a: int, b: int): int {
    if a < b then b else a
  }

  // Left alone, every unfinished task is claimable once a lease and the longest backoff are over.
  lemma NoLostTask(w: World, t: TaskId, at: Time)
    requires RowsInv(w) && t in w.db.tasks && !Terminal(w.db.tasks[t].status)
    requires at >= w.now + Longest(w.cfg.lease, Delay(w.cfg.base, MAX_AUTO_RETRIES - 1))
    ensures Eligible(w.db.tasks[t], at)
  {
    assert RowInv(w, t);
    DelayMonotone(w.cfg.base, 0, MAX_AUTO_RETRIES - 1);
  }

  // A leased task is at every instant either owned or claimable, never both, never neither.
  lemma OwnedXorClaimable(w: World, t: TaskId, at: Time)
    requires RowsInv(w) && t in w.db.tasks && w.db.tasks[t].token.Some?
    ensures Owns(w.db.tasks[t], w.db.tasks[t].token.value, at) <==> !Eligible(w.db.tasks[t], at)
  {
    assert RowInv(w, t);
  }

  // Eligibility only grows while the row is locked, so the later clock reading is safe to use.
  lemma EligibleStays(t: Task, at: Time, later: Time)
    requires Eligible(t, at) && at <= later
    ensures Eligible(t, later)
  {
  }

  // An eligible task of a visible recording is really handed out, with its transcript.
  lemma ClaimSucceeds(w: World, t: TaskId, token: Token, at: Time)
    requires RowsInv(w) && t in w.db.tasks && Eligible(w.db.tasks[t], at)
    requires Visible(w, w.db.tasks[t].recording) && TimeOk(w, w.db.tasks[t].recording, at)
    requires token !in w.past.tokens
    ensures var r := w.db.tasks[t].recording;
            var e := ClaimTask(r, t, token, at);
            var row := Next(w, e).db.tasks[t];
            var lease := Lease(r, t, token, row.status, w.db.recordings[r].key, w.db.tasks[t].transcript);
            && Granted(w, e) && Active(row.status)
            && lease in Next(w, e).past.leases
            && Owned(Next(w, e), lease, at)
  {
    var e := ClaimTask(w.db.tasks[t].recording, t, token, at);
    assert RowInv(w, t);
    QueueShape(w, e);
  }
}
