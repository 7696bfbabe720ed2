/** A row is nothing but the writes it accepted: what each column tells about them. */
module Journal {
  import opened Domain
  import opened Backoff
  import opened TaskRow
  import opened System
  import opened Shapes
  import opened Rows
  import opened Fencing
  import opened History

  // The accepted writes of a task within a run, in order.
  ghost function Writes(w: World, es: seq<Event>, t: TaskId): seq<Event>
    decreases |es|
  {
    if es == [] then []
    else
      (if Granted(w, es[0]) && QueueTask(es[0]) == t then [es[0]] else []) + Writes(Next(w, es[0]), es[1..], t)
  }

  lemma {:induction false} JournalIsOfQueueEvents(w: World, es: seq<Event>, t: TaskId)
    ensures forall i :: 0 <= i < |Writes(w, es, t)| ==> IsQueueEvent(Writes(w, es, t)[i])
    decreases |es|
  {
    if es != [] {
      JournalIsOfQueueEvents(Next(w, es[0]), es[1..], t);
    }
  }

  predicate Replayable(cfg: Config, row: Task, ws: seq<Event>)
    decreases |ws|
  {
    ws != [] ==>
      && IsQueueEvent(ws[0]) && Accepts(row, QueueOp(ws[0]), ws[0].at)
      && Replayable(cfg, Apply(cfg, row, QueueOp(ws[0]), ws[0].at), ws[1..])
  }

  function Replay(cfg: Config, row: Task, ws: seq<Event>): Task
    requires Replayable(cfg, row, ws)
    decreases |ws|
  {
    if ws == [] then row else Replay(cfg, Apply(cfg, row, QueueOp(ws[0]), ws[0].at), ws[1..])
  }

  // The row before the run, or as it was born.
  ghost function RowAtBirth(w: World, end: World, t: TaskId): Task
    requires t in end.db.tasks
  {
    var row := end.db.tasks[t];
    if t in w.db.tasks then w.db.tasks[t] else NewTask(row.recording, row.attempt, row.retryOf, row.createdAt)
  }

  lemma {:induction false} ReplayKeepsIdentity(cfg: Config, row: Task, ws: seq<Event>)
    requires Replayable(cfg, row, ws)
    ensures var end := Replay(cfg, row, ws);
            && end.recording == row.recording && end.attempt == row.attempt
            && end.retryOf == row.retryOf && end.createdAt == row.createdAt
    decreases |ws|
  {
    if ws != [] {
      ReplayKeepsIdentity(cfg, Apply(cfg, row, QueueOp(ws[0]), ws[0].at), ws[1..]);
    }
  }

  // In every run, whatever else happened, a row is the replay of its accepted writes.
  lemma {:induction false} RowIsItsJournal(w: World, es: seq<Event>, t: TaskId)
    requires RowsInv(w) && t in Run(w, es).db.tasks
    ensures var end := Run(w, es);
            && Replayable(w.cfg, RowAtBirth(w, end, t), Writes(w, es, t))
            && end.db.tasks[t] == Replay(w.cfg, RowAtBirth(w, end, t), Writes(w, es, t))
    decreases |es|
  {
    if es != [] {
      var w1, rest := Next(w, es[0]), Writes(Next(w, es[0]), es[1..], t);
      RowsKept(w, es[0]);
      FirstStep(w, es, t);
      RowIsItsJournal(w1, es[1..], t);
      if Granted(w, es[0]) && QueueTask(es[0]) == t {
        assert ([es[0]] + rest)[1..] == rest;
      } else {
        assert [] + rest == rest;
        if t !in w.db.tasks && t in w1.db.tasks {
          ReplayKeepsIdentity(w.cfg, w1.db.tasks[t], rest);
        }
      }
    }
  }

  // ---------- What the columns tell ----------

  predicate Transcribes(ws: seq<Event>, i: int) {
    0 <= i < |ws| && ws[i].SaveTranscript?
  }

  lemma ShapeKept(cfg: Config, row: Task, e: Event)
    requires Shape(row) && IsQueueEvent(e) && Accepts(row, QueueOp(e), e.at)
    ensures Shape(Apply(cfg, row, QueueOp(e), e.at))
    ensures !Apply(cfg, row, QueueOp(e), e.at).status.Pending? && !Terminal(row.status)
  {
  }

  // A stored transcript is the text of the one accepted transcript.
  lemma {:induction false} TranscriptIsWritten(cfg: Config, row: Task, ws: seq<Event>)
    requires Shape(row) && Replayable(cfg, row, ws)
    ensures var end := Replay(cfg, row, ws);
            && (forall i :: Transcribes(ws, i) ==> row.transcript.None? && end.transcript == Some(ws[i].text))
            && (forall i, j :: Transcribes(ws, i) && Transcribes(ws, j) ==> i == j)
            && ((forall i :: !Transcribes(ws, i)) ==> end.transcript == row.transcript)
    decreases |ws|
  {
    if ws != [] {
      var row1 := Apply(cfg, row, QueueOp(ws[0]), ws[0].at);
      ShapeKept(cfg, row, ws[0]);
      TranscriptIsWritten(cfg, row1, ws[1..]);
      forall i | Transcribes(ws, i) && i > 0 ensures Transcribes(ws[1..], i - 1) {
      }
      forall i | Transcribes(ws[1..], i) ensures Transcribes(ws, i + 1) {
      }
      if ws[0].SaveTranscript? {
        assert Transcribes(ws, 0);
        StaysTranscribed(cfg, row1, ws[1..]);
      }
    }
  }

  lemma {:induction false} StaysTranscribed(cfg: Config, row: Task, ws: seq<Event>)
    requires Shape(row) && Replayable(cfg, row, ws) && row.transcript.Some?
    ensures Replay(cfg, row, ws).transcript == row.transcript && forall i :: !Transcribes(ws, i)
    decreases |ws|
  {
    if ws != [] {
      ShapeKept(cfg, row, ws[0]);
      StaysTranscribed(cfg, Apply(cfg, row, QueueOp(ws[0]), ws[0].at), ws[1..]);
      forall i | Transcribes(ws, i) ensures false {
        assert i > 0 ==> Transcribes(ws[1..], i - 1);
      }
    }
  }

  // ---------- Every column, from the writes alone ----------

  // What the writes before the last one were.
  function Earlier(ws: seq<Event>): seq<Event>
    requires ws != []
  {
    ws[..|ws| - 1]
  }

  function Last(ws: seq<Event>): Event
    requires ws != []
  {
    ws[|ws| - 1]
  }

  // The accepted failures that asked for a retry while budget was left.
  function RetriesIn(ws: seq<Event>): nat
    decreases |ws|
  {
    if ws == [] then 0
    else if Last(ws).FailTask? && Last(ws).retryable && RetriesIn(Earlier(ws)) < 3 then RetriesIn(Earlier(ws)) + 1
    else RetriesIn(Earlier(ws))
  }

  // The claims that took over an execution which neither finished nor failed.
  function RecoveriesIn(ws: seq<Event>): nat
    decreases |ws|
  {
    if ws == [] then 0
    else if Last(ws).ClaimTask? && Earlier(ws) != [] && !Last(Earlier(ws)).FailTask? then RecoveriesIn(Earlier(ws)) + 1
    else RecoveriesIn(Earlier(ws))
  }

  // The last write is a failure without a retry.
  predicate GaveUp(ws: seq<Event>) {
    ws != [] && Last(ws).FailTask? && !(Last(ws).retryable && RetriesIn(Earlier(ws)) < 3)
  }

  function TextOf(ws: seq<Event>): Option<string>
    decreases |ws|
  {
    if ws == [] then None
    else if Last(ws).SaveTranscript? then Some(Last(ws).text)
    else TextOf(Earlier(ws))
  }

  // The latest failure since the last progress.
  function FailureOf(ws: seq<Event>): Option<Failure>
    decreases |ws|
  {
    if ws == [] || Last(ws).SaveTranscript? then None
    else if Last(ws).FailTask? then Some(Last(ws).failure)
    else FailureOf(Earlier(ws))
  }

  // The backoff of the first, second and third retry: one, two and four bases.
  function Wait(base: real, retry: nat): int {
    Round((if retry == 1 then 1.0 else if retry == 2 then 2.0 else 4.0) * base)
  }

  // The row that has accepted exactly these writes since it was born.
  predicate Told(cfg: Config, row: Task, ws: seq<Event>) {
    if ws == [] then row == NewTask(row.recording, row.attempt, row.retryOf, row.createdAt)
    else
      var last := Last(ws);
      var over := last.CompleteTask? || GaveUp(ws);
      && IsQueueEvent(last)
      && row.status == (if last.CompleteTask? then Done else if GaveUp(ws) then Failed
                        else if TextOf(ws).Some? then Summarizing else Transcribing)
      && row.transcript == TextOf(ws)
      && row.summary == (if last.CompleteTask? then Some(last.summary) else None)
      && row.error == (if GaveUp(ws) then Some(last.failure) else None)
      && row.lastError == (if over then None else FailureOf(ws))
      && row.token == (if last.ClaimTask? then Some(last.token)
                       else if last.Heartbeat? || last.SaveTranscript? then Some(last.lease.token) else None)
      && row.expires == (if last.CompleteTask? || last.FailTask? then None else Some(last.at + cfg.lease))
      && row.retries == RetriesIn(ws) && row.recoveries == RecoveriesIn(ws)
      && row.nextAttempt == (if last.FailTask? && !GaveUp(ws) then Some(last.at + Wait(cfg.base, RetriesIn(ws))) else None)
      && ws[0].ClaimTask? && row.startedAt == Some(ws[0].at)
      && row.finishedAt == (if over then Some(last.at) else None)
  }

  lemma DelayIsWait(base: real, count: nat)
    requires count < 3
    ensures Delay(base, count) == Wait(base, count + 1)
  {
    assert Scaled(base, 1) == 2.0 * base;
    assert Scaled(base, 2) == 2.0 * Scaled(base, 1) == 4.0 * base;
  }

  lemma ToldStep(cfg: Config, row: Task, ws: seq<Event>, e: Event)
    requires Told(cfg, row, ws) && IsQueueEvent(e) && Accepts(row, QueueOp(e), e.at)
    ensures Told(cfg, Apply(cfg, row, QueueOp(e), e.at), ws + [e])
  {
    var longer := ws + [e];
    assert Earlier(longer) == ws && Last(longer) == e;
    if row.retries < 3 {
      DelayIsWait(cfg.base, row.retries);
    }
    assert TextOf(longer) == if e.SaveTranscript? then Some(e.text) else TextOf(ws);
  }

  lemma {:induction false} ReplayIsTold(cfg: Config, row: Task, done: seq<Event>, ws: seq<Event>)
    requires Told(cfg, row, done) && Replayable(cfg, row, ws)
    ensures Told(cfg, Replay(cfg, row, ws), done + ws)
    decreases |ws|
  {
    hide Told, Apply;
    if ws == [] {
      assert done + ws == done;
    } else {
      ToldStep(cfg, row, done, ws[0]);
      ReplayIsTold(cfg, Apply(cfg, row, QueueOp(ws[0]), ws[0].at), done + [ws[0]], ws[1..]);
      assert done + [ws[0]] + ws[1..] == done + ws;
    }
  }

  // In every run of the service every column of a row is what its accepted writes say.
  lemma RowIsTold(w: World, es: seq<Event>, t: TaskId)
    requires Start(w) && t in Run(w, es).db.tasks
    ensures Told(w.cfg, Run(w, es).db.tasks[t], Writes(w, es, t))
  {
    StartRows(w);
    RowIsItsJournal(w, es, t);
    var first := RowAtBirth(w, Run(w, es), t);
    ReplayIsTold(w.cfg, first, [], Writes(w, es, t));
    assert [] + Writes(w, es, t) == Writes(w, es, t);
  }

  // What an accepted failure makes of a row, in either stage: the next retry after one, two or
  // four bases while there is budget, the end of the task with this error otherwise.
  predicate RetryOrEnd(base: real, row: Task, row': Task, failure: Failure, retryable: bool, at: Time) {
    && row'.token.None? && row'.expires.None?
    && (if retryable && row.retries < 3 then
          && row'.status == row.status && row'.retries == row.retries + 1
          && row'.nextAttempt == Some(at + Round([1.0, 2.0, 4.0][row.retries] * base))
          && row'.lastError == Some(failure) && row'.error.None? && row'.finishedAt.None?
        else
          && row'.status.Failed? && row'.retries == row.retries && row'.nextAttempt.None?
          && row'.error == Some(failure) && row'.lastError.None? && row'.finishedAt == Some(at))
    && row'.transcript == row.transcript && row'.summary == row.summary
    && row'.recoveries == row.recoveries && row'.startedAt == row.startedAt
  }

  lemma FailureIsScheduled(w: World, e: Event)
    requires RowsInv(w) && e.FailTask? && Granted(w, e)
    ensures Next(w, e).db.tasks == w.db.tasks[e.lease.task := GrantedRow(w, e)]
    ensures RetryOrEnd(w.cfg.base, w.db.tasks[e.lease.task], GrantedRow(w, e), e.failure, e.retryable, e.at)
  {
    QueueShape(w, e);
    var row := w.db.tasks[e.lease.task];
    assert RowInv(w, e.lease.task);
    if row.retries < 3 {
      DelayIsWait(w.cfg.base, row.retries);
    }
    hide Round, Delay, Next;
  }

  // The whole story of a task in a run of the service.
  lemma TaskTellsItsStory(w: World, es: seq<Event>, t: TaskId)
    requires Start(w) && t in Run(w, es).db.tasks
    ensures var row, ws := Run(w, es).db.tasks[t], Writes(w, es, t);
            && (row.status.Pending? <==> ws == [])
            && (ws != [] ==> ws[0].ClaimTask? && row.startedAt == Some(ws[0].at))
            && (Terminal(row.status) ==>
                  var last := ws[|ws| - 1];
                  && IsQueueEvent(last) && row.finishedAt == Some(last.at)
                  && (row.status.Done? ==> last.CompleteTask? && row.summary == Some(last.summary))
                  && (row.status.Failed? ==> last.FailTask? && row.error == Some(last.failure)))
            && (!Terminal(row.status) ==> row.lastError == FailureOf(ws))
            && (forall i :: Transcribes(ws, i) ==> row.transcript == Some(ws[i].text))
            && (row.transcript.Some? ==> exists i :: Transcribes(ws, i))
  {
    StartRows(w);
    RowIsItsJournal(w, es, t);
    var first, ws := RowAtBirth(w, Run(w, es), t), Writes(w, es, t);
    NewTaskOk(w.cfg, first.recording, first.attempt, first.retryOf, first.createdAt);
    RowIsTold(w, es, t);
    TranscriptIsWritten(w.cfg, first, ws);
  }
}
