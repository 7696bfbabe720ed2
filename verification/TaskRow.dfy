/** The life of one task row: claim, renew, persist, finish, retry; and what every such write keeps. */
module TaskRow {
  import opened Domain
  import opened Backoff

  // What a transaction asks of a task row.
  datatype Op =
    | Take(token: Token)
    | Renew(token: Token)
    | Persist(token: Token, text: string)
    | Complete(token: Token, summary: Summary)
    | Fail(token: Token, stage: Status, failure: Failure, retryable: bool)

  predicate Eligible(t: Task, now: Time) {
    && (t.nextAttempt.None? || t.nextAttempt.value <= now)
    && (t.status.Pending? || (Active(t.status) && (t.expires.None? || t.expires.value <= now)))
  }

  // The write gate, apart from the recording being visible.
  predicate Owns(t: Task, token: Token, now: Time) {
    Active(t.status) && t.token == Some(token) && t.expires.Some? && now < t.expires.value
  }

  predicate Accepts(t: Task, op: Op, now: Time) {
    match op
    case Take(_) => Eligible(t, now)
    case Renew(token) => Owns(t, token, now)
    case Persist(token, text) => Owns(t, token, now) && t.status.Transcribing? && !Blank(text)
    case Complete(token, _) => Owns(t, token, now) && t.status.Summarizing?
    case Fail(token, stage, _, _) => Owns(t, token, now) && t.status == stage
  }

  function Apply(cfg: Config, t: Task, op: Op, now: Time): Task {
    match op
    case Take(token) =>
      var started :=
        if t.status.Pending? then t.(status := Transcribing, startedAt := Some(now))
        else if t.nextAttempt.None? then t.(recoveries := t.recoveries + 1)
        else t;
      started.(nextAttempt := None, token := Some(token), expires := Some(now + cfg.lease))
    case Renew(_) =>
      t.(expires := Some(now + cfg.lease))
    case Persist(_, text) =>
      t.(transcript := Some(text), lastError := None, status := Summarizing, expires := Some(now + cfg.lease))
    case Complete(_, summary) =>
      Finish(t.(summary := Some(summary), status := Done, error := None, lastError := None), now)
    case Fail(_, _, failure, retryable) =>
      if retryable && t.retries < MAX_AUTO_RETRIES then
        t.(retries := t.retries + 1, lastError := Some(failure),
        nextAttempt := Some(now + Delay(cfg.base, t.retries)), token := None, expires := None)
      else
        Finish(t.(status := Failed, error := Some(failure), lastError := None), now)
  }

  function Finish(t: Task, now: Time): Task {
    t.(finishedAt := Some(now), nextAttempt := None, token := None, expires := None)
  }

  function NewTask(recording: RecordingId, attempt: int, retryOf: Option<TaskId>, now: Time): Task {
    Task(recording, attempt, retryOf, Pending, None, None, None, None, None, None, 0, 0, None, now, None, None)
  }

  // ---------- The shape of every reachable row ----------

  predicate Leased(t: Task) {
    t.token.Some? && t.expires.Some? && t.nextAttempt.None?
  }

  predicate Waiting(t: Task) {
    t.token.None? && t.expires.None? && t.nextAttempt.Some? && t.retries > 0 && t.lastError.Some?
  }

  predicate Shape(t: Task) {
    && t.retries <= MAX_AUTO_RETRIES
    && (t.status.Pending? ==>
      t == NewTask(t.recording, t.attempt, t.retryOf, t.createdAt))
    && (Active(t.status) ==>
      && (Leased(t) || Waiting(t))
      && t.startedAt.Some? && t.finishedAt.None? && t.summary.None? && t.error.None?)
    && (t.status.Transcribing? ==> t.transcript.None?)
    && (t.status.Summarizing? || t.status.Done? ==> t.transcript.Some? && !Blank(t.transcript.value))
    && (Terminal(t.status) ==>
      && t.token.None? && t.expires.None? && t.nextAttempt.None?
      && t.startedAt.Some? && t.finishedAt.Some? && t.lastError.None?)
    && (t.status.Done? ==> t.summary.Some? && t.error.None?)
    && (t.status.Failed? ==> t.summary.None? && t.error.Some?)
  }

  // What the row's instants promise, `seen` being the last clock reading used on the row.
  predicate Timed(cfg: Config, t: Task, seen: Time) {
    t.startedAt.Some? ==>
      var paid := t.startedAt.value + Waited(cfg.base, t.retries);
      && t.startedAt.value <= seen
      && (t.nextAttempt.Some? ==> paid <= t.nextAttempt.value <= seen + Delay(cfg.base, MAX_AUTO_RETRIES - 1))
      && (t.nextAttempt.None? ==> paid <= seen)
      && (t.finishedAt.Some? ==> paid <= t.finishedAt.value <= seen)
      && (t.expires.Some? ==> t.expires.value <= seen + cfg.lease)
  }

  predicate RowOk(cfg: Config, t: Task, seen: Time) {
    Shape(t) && Timed(cfg, t, seen)
  }

  lemma NewTaskOk(cfg: Config, recording: RecordingId, attempt: int, retryOf: Option<TaskId>, now: Time)
    ensures RowOk(cfg, NewTask(recording, attempt, retryOf, now), now)
  {
  }

  lemma RowOkLater(cfg: Config, t: Task, seen: Time, later: Time)
    requires RowOk(cfg, t, seen) && seen <= later
    ensures RowOk(cfg, t, later)
  {
  }

  // Every accepted write keeps the shape and the deadline arithmetic.
  lemma RowKept(cfg: Config, t: Task, op: Op, seen: Time, now: Time)
    requires ValidConfig(cfg) && RowOk(cfg, t, seen) && seen <= now && Accepts(t, op, now)
    ensures RowOk(cfg, Apply(cfg, t, op, now), now)
  {
    DelayMonotone(cfg.base, if t.retries < MAX_AUTO_RETRIES then t.retries else 0, MAX_AUTO_RETRIES - 1);
  }

  // ---------- Conservation of claims ----------

  function One(b: bool): int {
    if b then 1 else 0
  }

  // The number of successful claims a row accounts for.
  function ClaimsOf(t: Task): int {
    One(!t.status.Pending?) + t.retries - One(t.nextAttempt.Some?) + t.recoveries
  }

  lemma ClaimsCounted(cfg: Config, t: Task, op: Op, now: Time)
    requires Shape(t) && Accepts(t, op, now)
    ensures ClaimsOf(Apply(cfg, t, op, now)) == ClaimsOf(t) + One(op.Take?)
  {
  }

  // ---------- Bounded work ----------

  predicate IsResult(op: Op) {
    op.Persist? || op.Complete? || op.Fail?
  }

  // Stages still to pass plus retries still to spend.
  function WorkLeft(t: Task): int {
    if Terminal(t.status) then 0
    else (if t.status.Summarizing? then 1 else 2) + MAX_AUTO_RETRIES - t.retries
  }

  lemma WorkShrinks(cfg: Config, t: Task, op: Op, now: Time)
    requires Shape(t) && Accepts(t, op, now)
    ensures 0 <= WorkLeft(Apply(cfg, t, op, now)) <= WorkLeft(t) - One(IsResult(op))
  {
  }
}
