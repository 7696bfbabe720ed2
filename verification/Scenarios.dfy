/** Runs of the service that show where two promises fail, and exactly when they hold. */
module Scenarios {
  import opened Domain
  import opened Backoff
  import opened TaskRow
  import opened System
  import opened Shapes
  import opened Rows
  import opened Fencing
  import opened History
  import opened Transcripts
  import opened Safety
  import opened Heartbeats

  // ---------- One recording with one task ----------

  function Empty(cfg: Config): World {
    World(cfg, 0, Tables(map[], map[]), Calls(map[], map[], map[], map[], map[]),
      Past(map[], {}, {}, map[], map[], {}, {}))
  }

  const UPLOADING := [SaveFile(0, 0, Audio(0, 1), ""), InsertRows(0, 0, 0, Landed, 0)]

  // The service at `now`, with the row of task 0 and the tokens below `tokens` issued.
  ghost predicate Stands(w: World, cfg: Config, now: Time, tokens: nat, row: Task) {
    && Inv(w) && w.cfg == cfg && w.now == now
    && Visible(w, 0) && w.db.recordings[0].key == 0
    && 0 in w.db.tasks && w.db.tasks[0] == row && row.recording == 0
    && (forall token :: token in w.past.tokens ==> token < tokens)
  }

  lemma Uploaded(cfg: Config)
    requires ValidConfig(cfg)
    ensures Start(Empty(cfg))
    ensures Stands(Run(Empty(cfg), UPLOADING), cfg, 0, 0, NewTask(0, 1, None, 0))
    ensures WorkerRun(Empty(cfg), UPLOADING) && AlwaysRetryable(UPLOADING)
  {
    var w := Empty(cfg);
    var w1 := Next(w, UPLOADING[0]);
    var w2 := Next(w1, UPLOADING[1]);
    StartInv(w);
    Always(w, UPLOADING);
    assert UPLOADING[1..] == [UPLOADING[1]] && UPLOADING[1..][1..] == [];
    assert Run(w1, UPLOADING[1..]) == w2 by {
      RunNothing(w2);
    }
    assert WorkerRun(w2, []);
    assert WorkerRun(w1, UPLOADING[1..]);
  }

  lemma ClockPasses(w: World, cfg: Config, now: Time, tokens: nat, row: Task, later: Time)
    requires Stands(w, cfg, now, tokens, row) && now <= later
    ensures Stands(Next(w, Tick(later)), cfg, later, tokens, row)
  {
    Kept(w, Tick(later));
  }

  // The snapshot a claim of the untranscribed task hands out.
  function Snapshot(token: Token): Lease {
    Lease(0, 0, token, Transcribing, 0, None)
  }

  lemma Claims(w: World, cfg: Config, now: Time, tokens: nat, row: Task)
    requires Stands(w, cfg, now, tokens, row) && Eligible(row, now) && !row.status.Summarizing?
    ensures var e := ClaimTask(0, 0, tokens, now);
            && Granted(w, e)
            && Stands(Next(w, e), cfg, now, tokens + 1, Apply(cfg, row, Take(tokens), now))
            && Snapshot(tokens) in Next(w, e).past.leases
  {
    var e := ClaimTask(0, 0, tokens, now);
    hide Next;
    assert RowInv(w, 0);
    Kept(w, e);
    QueueShape(w, e);
  }

  lemma NowIsFine(w: World)
    requires Inv(w)
    ensures TimeOk(w, 0, w.now)
  {
  }

  lemma LeaseWrites(w: World, cfg: Config, now: Time, tokens: nat, row: Task, e: Event)
    requires Stands(w, cfg, now, tokens, row)
    requires IsLeaseEvent(e) && e.at == now && SameOwner(e.lease, Snapshot(e.lease.token))
    ensures Enabled(w, e) && (Granted(w, e) <==> Accepts(row, QueueOp(e), now))
    ensures Stands(Next(w, e), cfg, now, tokens,
                   if Accepts(row, QueueOp(e), now) then Apply(cfg, row, QueueOp(e), now) else row)
  {
    hide Inv, Next;
    NowIsFine(w);
    Kept(w, e);
    QueueShape(w, e);
  }

  // ---------- Backoff: the shortest failure ----------

  // Claim and fail at the first instant the task is due.
  function Burn(token: Token, now: Time): seq<Event> {
    [Tick(now), ClaimTask(0, 0, token, now), FailTask(Snapshot(token), Failure("asr_failed", ""), true, now)]
  }

  function Burns(base: real, count: nat): seq<Event> {
    if count == 0 then [] else Burns(base, count - 1) + Burn(count - 1, Waited(base, count - 1))
  }

  function FailedOnce(cfg: Config, row: Task, token: Token, now: Time): Task {
    Apply(cfg, Apply(cfg, row, Take(token), now), Fail(token, Transcribing, Failure("asr_failed", ""), true), now)
  }

  lemma BurnsOnce(w: World, cfg: Config, now: Time, tokens: nat, row: Task, later: Time)
    requires ValidConfig(cfg) && Stands(w, cfg, now, tokens, row) && now <= later
    requires Eligible(row, later) && !row.status.Summarizing?
    ensures var es := Burn(tokens, later);
            && Stands(Run(w, es), cfg, later, tokens + 1, FailedOnce(cfg, row, tokens, later))
            && WorkerRun(w, es) && AlwaysRetryable(es)
  {
    hide Inv, Next, Stands, Granted;
    var es := Burn(tokens, later);
    var w1 := Next(w, es[0]);
    var w2 := Next(w1, es[1]);
    var w3 := Next(w2, es[2]);
    ClockPasses(w, cfg, now, tokens, row, later);
    Claims(w1, cfg, later, tokens, row);
    LeaseWrites(w2, cfg, later, tokens + 1, Apply(cfg, row, Take(tokens), later), es[2]);
    assert es[1..] == [es[1], es[2]] && es[1..][1..] == [es[2]] && es[1..][1..][1..] == [];
    RunNothing(w3);
    assert Run(w1, es[1..]) == w3;
    assert WorkerRun(w3, []);
    assert WorkerRun(w2, [es[2]]);
    assert WorkerRun(w1, es[1..]);
  }

  // The row after the given number of failures.
  predicate Burned(cfg: Config, row: Task, count: nat) {
    && count <= 4 && row.recording == 0
    && (count == 0 ==> row == NewTask(0, 1, None, 0))
    && (0 < count ==> row.startedAt == Some(0))
    && (0 < count < 4 ==>
          row.status.Transcribing? && row.retries == count && row.expires.None?
          && row.nextAttempt == Some(Waited(cfg.base, count)))
    && (count == 4 ==> row.status.Failed? && row.finishedAt == Some(Waited(cfg.base, 3)))
  }

  lemma BurnedOnce(cfg: Config, row: Task, count: nat)
    requires Burned(cfg, row, count) && count < 4
    ensures Eligible(row, Waited(cfg.base, count)) && !row.status.Summarizing?
    ensures Burned(cfg, FailedOnce(cfg, row, count, Waited(cfg.base, count)), count + 1)
  {
  }

  lemma WaitedGrows(base: real, count: nat)
    requires base > 0.0 && count > 0
    ensures Waited(base, count - 1) <= Waited(base, count)
  {
    DelayMonotone(base, count - 1, count - 1);
  }

  lemma {:induction false} AfterBurns(cfg: Config, count: nat) returns (row: Task)
    requires ValidConfig(cfg) && count <= 4
    ensures var es := UPLOADING + Burns(cfg.base, count);
            && Stands(Run(Empty(cfg), es), cfg, if count == 0 then 0 else Waited(cfg.base, count - 1), count, row)
            && WorkerRun(Empty(cfg), es) && AlwaysRetryable(es)
    ensures Burned(cfg, row, count)
  {
    hide Inv, Next, Stands;
    if count == 0 {
      Uploaded(cfg);
      row := NewTask(0, 1, None, 0);
      assert UPLOADING + [] == UPLOADING;
    } else {
      var before := AfterBurns(cfg, count - 1);
      var now := if count == 1 then 0 else Waited(cfg.base, count - 2);
      var later := Waited(cfg.base, count - 1);
      var es := UPLOADING + Burns(cfg.base, count - 1);
      BurnedOnce(cfg, before, count - 1);
      if count > 1 {
        WaitedGrows(cfg.base, count - 1);
      }
      BurnsOnce(Run(Empty(cfg), es), cfg, now, count - 1, before, later);
      row := FailedOnce(cfg, before, count - 1, later);
      RunAppend(Empty(cfg), es, Burn(count - 1, later));
      WorkerRunAppend(Empty(cfg), es, Burn(count - 1, later));
      assert es + Burn(count - 1, later) == UPLOADING + Burns(cfg.base, count);
    }
  }

  // A task these workers gave up on, sooner than seven bases after its start.
  ghost predicate GivesUpEarly(cfg: Config, w: World, es: seq<Event>, t: TaskId) {
    && Start(w) && w.cfg == cfg && WorkerRun(w, es) && AlwaysRetryable(es)
    && t in Run(w, es).db.tasks
    && var row := Run(w, es).db.tasks[t];
    && row.status.Failed? && row.startedAt.Some? && row.finishedAt.Some?
    && (row.finishedAt.value - row.startedAt.value) as real < 7.0 * cfg.base
  }

  // The three backoffs are really all a failing task has to wait for.
  lemma ShortestFailure(cfg: Config) returns (es: seq<Event>)
    requires ValidConfig(cfg)
    ensures var end := Run(Empty(cfg), es);
            && Start(Empty(cfg)) && WorkerRun(Empty(cfg), es) && AlwaysRetryable(es)
            && 0 in end.db.tasks && end.db.tasks[0].status.Failed?
            && end.db.tasks[0].startedAt == Some(0) && end.db.tasks[0].finishedAt == Some(Waited(cfg.base, 3))
  {
    Uploaded(cfg);
    var row := AfterBurns(cfg, 4);
    es := UPLOADING + Burns(cfg.base, 4);
  }

  // No task is given up sooner than seven bases after its start if and only if the base, by its
  // fraction of a microsecond, is one of those that rounding does not shorten.
  lemma SevenBasesHoldExactly(cfg: Config)
    requires ValidConfig(cfg)
    ensures (forall w, es, t :: !GivesUpEarly(cfg, w, es, t)) <==> Enough(cfg.base)
  {
    SevenBasesExactly(cfg.base);
    if Enough(cfg.base) {
      forall w, es, t ensures !GivesUpEarly(cfg, w, es, t) {
        if GivesUpEarly(cfg, w, es, t) {
          FailureTakesSevenBases(w, es, t);
        }
      }
    } else {
      var es := ShortestFailure(cfg);
      assert GivesUpEarly(cfg, Empty(cfg), es, 0);
    }
  }

  // ---------- Heartbeats: a late reply followed by a late reading ----------

  // A lease in the hands of a heartbeat loop whose transactions, the claim included, all return
  // less than `bound` after their start.
  ghost predicate Beats(cfg: Config, interval: Time, bound: Time, w: World, before: seq<Event>, es: seq<Event>,
                        lease: Lease, last: Time, back: Time, turns: seq<Turn>) {
    && Start(w) && w.cfg == cfg
    && HeldOrLost(Run(w, before), lease, last) && last <= back < last + bound
    && Unended(Run(w, before), es, lease)
    && Paced(Run(w, before), es, lease, interval, bound, back, turns)
  }

  function Claimed(): seq<Event> {
    UPLOADING + [ClaimTask(0, 0, 0, 0)]
  }

  lemma ClaimedAtZero(cfg: Config) returns (row: Task)
    requires ValidConfig(cfg)
    ensures Start(Empty(cfg)) && Stands(Run(Empty(cfg), Claimed()), cfg, 0, 1, row)
    ensures row.status.Transcribing? && row.token == Some(0) && row.expires == Some(cfg.lease) && row.nextAttempt.None?
    ensures HeldOrLost(Run(Empty(cfg), Claimed()), Snapshot(0), 0)
  {
    var w := Run(Empty(cfg), UPLOADING);
    row := Apply(cfg, NewTask(0, 1, None, 0), Take(0), 0);
    Uploaded(cfg);
    Claims(w, cfg, 0, 0, NewTask(0, 1, None, 0));
    ClaimIsHeld(w, ClaimTask(0, 0, 0, 0), Snapshot(0));
    RunAppend(Empty(cfg), UPLOADING, [ClaimTask(0, 0, 0, 0)]);
    RunNothing(Next(w, ClaimTask(0, 0, 0, 0)));
    assert [ClaimTask(0, 0, 0, 0)][1..] == [];
    assert Run(w, [ClaimTask(0, 0, 0, 0)]) == Next(w, ClaimTask(0, 0, 0, 0));
  }

  // The first renewal reads the clock at once and replies late; the second wakes late and reads
  // late; in between another worker finds the lease run out.
  function LateRun(cfg: Config, interval: Time, bound: Time): seq<Event> {
    var read := 2 * interval + 2 * (bound - 1);
    [Tick(interval), Heartbeat(Snapshot(0), interval),
     Tick(interval + cfg.lease), ClaimTask(0, 0, 1, interval + cfg.lease),
     Tick(read), Heartbeat(Snapshot(0), read)]
  }

  function LateTurns(interval: Time, bound: Time): seq<Turn> {
    [Turn(interval, interval + bound - 1),
     Turn(2 * interval + bound - 1, 2 * interval + 2 * (bound - 1))]
  }

  // A step that is none of the loop's.
  lemma OtherIsMade(w: World, e: Event, rest: seq<Event>, lease: Lease, interval: Time, bound: Time, back: Time,
                    turns: seq<Turn>)
    requires !IsRenewal(e, lease) && !Ends(w, e, lease)
    requires Paced(Next(w, e), rest, lease, interval, bound, back, turns)
    requires Unended(Next(w, e), rest, lease) && !NeverRefused(Next(w, e), rest, lease)
    ensures Paced(w, [e] + rest, lease, interval, bound, back, turns)
    ensures Unended(w, [e] + rest, lease) && !NeverRefused(w, [e] + rest, lease)
  {
    hide Next;
    assert ([e] + rest)[1..] == rest;
  }

  // A turn of the loop.
  lemma TurnIsMade(w: World, e: Event, rest: seq<Event>, lease: Lease, interval: Time, bound: Time, back: Time,
                   turn: Turn, turns: seq<Turn>)
    requires IsRenewal(e, lease) && Enabled(w, e)
    requires turn.wake == back + interval && turn.wake <= e.at <= turn.reply && turn.reply - turn.wake < bound
    requires Paced(Next(w, e), rest, lease, interval, bound, turn.reply, turns) && Unended(Next(w, e), rest, lease)
    requires !Granted(w, e) || !NeverRefused(Next(w, e), rest, lease)
    ensures Paced(w, [e] + rest, lease, interval, bound, back, [turn] + turns)
    ensures Unended(w, [e] + rest, lease) && !NeverRefused(w, [e] + rest, lease)
  {
    hide Next;
    assert ([e] + rest)[1..] == rest && ([turn] + turns)[1..] == turns;
  }

  // Although every renewal returns less than `bound` after its wake-up, another worker's claim
  // succeeds, and the loop finds out only afterwards.
  lemma LateReplyThenLateReading(cfg: Config, interval: Time, bound: Time)
    requires ValidConfig(cfg) && 1 <= interval < cfg.lease <= interval + 2 * (bound - 1)
    ensures var es := LateRun(cfg, interval, bound);
            var m := Run(Empty(cfg), Claimed());
            && Beats(cfg, interval, bound, Empty(cfg), Claimed(), es, Snapshot(0), 0, 0, LateTurns(interval, bound))
            && es[3].ClaimTask? && es[3].token != Snapshot(0).token && Granted(Run(m, es[..3]), es[3])
            && !NeverRefused(m, es, Snapshot(0))
  {
    hide Inv, Next, Stands, Granted, Start, HeldOrLost, Paced, NeverRefused, Unended;
    var es, l := LateRun(cfg, interval, bound), Snapshot(0);
    var m := Run(Empty(cfg), Claimed());
    var row := ClaimedAtZero(cfg);
    var w1 := Next(m, es[0]);
    var w2 := Next(w1, es[1]);
    var w3 := Next(w2, es[2]);
    var w4 := Next(w3, es[3]);
    var w5 := Next(w4, es[4]);
    var w6 := Next(w5, es[5]);
    var row2 := Apply(cfg, row, Renew(0), interval);
    var row4 := Apply(cfg, row2, Take(1), interval + cfg.lease);
    ClockPasses(m, cfg, 0, 1, row, interval);
    LeaseWrites(w1, cfg, interval, 1, row, es[1]);
    ClockPasses(w2, cfg, interval, 1, row2, interval + cfg.lease);
    Claims(w3, cfg, interval + cfg.lease, 1, row2);
    ClockPasses(w4, cfg, interval + cfg.lease, 2, row4, es[5].at);
    LeaseWrites(w5, cfg, es[5].at, 2, row4, es[5]);
    var turns := LateTurns(interval, bound);
    NothingLeft(w6, l, interval, bound, turns[1].reply);
    TurnIsMade(w5, es[5], [], l, interval, bound, turns[0].reply, turns[1], []);
    OtherIsMade(w4, es[4], [es[5]] + [], l, interval, bound, turns[0].reply, [turns[1]] + []);
    OtherIsMade(w3, es[3], [es[4]] + ([es[5]] + []), l, interval, bound, turns[0].reply, [turns[1]] + []);
    OtherIsMade(w2, es[2], [es[3]] + ([es[4]] + ([es[5]] + [])), l, interval, bound, turns[0].reply, [turns[1]] + []);
    var rest := [es[2]] + ([es[3]] + ([es[4]] + ([es[5]] + [])));
    TurnIsMade(w1, es[1], rest, l, interval, bound, 0, turns[0], [turns[1]] + []);
    OtherIsMade(m, es[0], [es[1]] + rest, l, interval, bound, 0, [turns[0]] + ([turns[1]] + []));
    assert es == [es[0]] + ([es[1]] + rest);
    assert turns == [turns[0]] + ([turns[1]] + []);
    ThreeSteps(m, es);
  }

  lemma NothingLeft(w: World, lease: Lease, interval: Time, bound: Time, back: Time)
    ensures Paced(w, [], lease, interval, bound, back, []) && Unended(w, [], lease)
  {
  }

  lemma ThreeSteps(w: World, es: seq<Event>)
    requires |es| >= 3
    ensures Run(w, es[..3]) == Next(Next(Next(w, es[0]), es[1]), es[2])
  {
    hide Next;
    var w1 := Next(w, es[0]);
    var w2 := Next(w1, es[1]);
    assert es[..3][1..] == [es[1], es[2]] && [es[1], es[2]][1..] == [es[2]] && [es[2]][1..] == [];
    RunNothing(Next(w2, es[2]));
    assert Run(w2, [es[2]]) == Next(w2, es[2]);
    assert Run(w1, [es[1], es[2]]) == Next(w2, es[2]);
  }

  // A configuration keeps every lease whose loop is paced, in every run, if and only if the lease
  // is longer than the interval and two of the longest transactions. For three intervals and
  // transactions shorter than two intervals, as the settings allow, it need not be.
  lemma LeasesSurviveExactly(cfg: Config, interval: Time, bound: Time)
    requires ValidConfig(cfg) && interval >= 1 && bound >= 1 && cfg.lease >= 3 * interval
    ensures (forall w, before, es, lease, last, back, turns ::
               Beats(cfg, interval, bound, w, before, es, lease, last, back, turns) ==>
                 NeverRefused(Run(w, before), es, lease))
            <==> interval + 2 * (bound - 1) < cfg.lease
  {
    if interval + 2 * (bound - 1) < cfg.lease {
      forall w, before, es, lease, last, back, turns |
        Beats(cfg, interval, bound, w, before, es, lease, last, back, turns)
        ensures NeverRefused(Run(w, before), es, lease)
      {
        BeatsSurvive(cfg, interval, bound, w, before, es, lease, last, back, turns);
      }
    } else {
      LateReplyThenLateReading(cfg, interval, bound);
    }
  }

  lemma BeatsSurvive(cfg: Config, interval: Time, bound: Time, w: World, before: seq<Event>, es: seq<Event>,
                     lease: Lease, last: Time, back: Time, turns: seq<Turn>)
    requires Beats(cfg, interval, bound, w, before, es, lease, last, back, turns)
    requires interval + 2 * (bound - 1) < cfg.lease
    ensures NeverRefused(Run(w, before), es, lease)
  {
    StartRows(w);
    RowsAlways(w, before);
    PastGrows(w, before);
    LongLeaseSurvives(Run(w, before), es, lease, last, interval, bound, back, turns, 0);
  }

  // With transactions of less than two intervals that is a lease of more than five intervals.
  lemma TwoIntervalsNeedFive(cfg: Config, interval: Time)
    requires ValidConfig(cfg) && interval >= 1 && cfg.lease >= 3 * interval
    ensures (forall w, before, es, lease, last, back, turns ::
               Beats(cfg, interval, 2 * interval, w, before, es, lease, last, back, turns) ==>
                 NeverRefused(Run(w, before), es, lease))
            <==> cfg.lease > 5 * interval - 2
  {
    LeasesSurviveExactly(cfg, interval, 2 * interval);
  }
}
