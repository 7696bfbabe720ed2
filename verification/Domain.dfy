/** The entities shared by every part of the model: rows, snapshots, files. */
module Domain {

  datatype Option<+T> = None | Some(value: T) {
    function GetOr(default: T): T {
      if Some? then value else default
    }
  }

  // UUIDs; only equality and (for listing) their total order matter.
  type RecordingId = int
  type TaskId = int
  type Token = int
  type Key = int
  type Digest = int
  type CallId = int

  // Instants and durations are whole microseconds, as in DATETIME(6).
  type Time = int

  const MAX_AUTO_RETRIES := 3
  const MAX_AUDIO_BYTES := 50 * 1024 * 1024

  datatype Status = Pending | Transcribing | Summarizing | Done | Failed

  datatype Summary = Summary(summary: string, keyPoints: seq<string>, todos: seq<string>)

  datatype Failure = Failure(code: string, message: string)

  // What a stored file holds, as far as the database can tell: its SHA-256 and its length.
  datatype Audio = Audio(digest: Digest, size: nat)

  datatype Recording = Recording(
    filename: string,
    key: Key,
    audio: Audio,
    createdAt: Time,
    deletedAt: Option<Time>)

  datatype Task = Task(
    recording: RecordingId,
    attempt: int,
    retryOf: Option<TaskId>,
    status: Status,
    transcript: Option<string>,
    summary: Option<Summary>,
    error: Option<Failure>,
    lastError: Option<Failure>,
    token: Option<Token>,
    expires: Option<Time>,
    recoveries: nat,
    retries: nat,
    nextAttempt: Option<Time>,
    createdAt: Time,
    startedAt: Option<Time>,
    finishedAt: Option<Time>)

  // The immutable snapshot a worker is handed; it is not a lock.
  datatype Lease = Lease(
    recording: RecordingId,
    task: TaskId,
    token: Token,
    stage: Status,
    key: Key,
    transcript: Option<string>)

  // Lease length and backoff base in microseconds. The base is a real number: only the
  // scheduled delay is rounded to whole microseconds.
  datatype Config = Config(lease: int, base: real)

  predicate ValidConfig(cfg: Config) {
    cfg.lease > 0 && cfg.base > 0.0
  }

  predicate Active(s: Status) {
    s.Transcribing? || s.Summarizing?
  }

  predicate Terminal(s: Status) {
    s.Done? || s.Failed?
  }

  // str.isspace()
  predicate Whitespace(c: char) {
    var code := c as int;
    || 0x09 <= code <= 0x0D || 0x1C <= code <= 0x20 || code == 0x85 || code == 0xA0 || code == 0x1680
    || 0x2000 <= code <= 0x200A || code == 0x2028 || code == 0x2029 || code == 0x202F || code == 0x205F
    || code == 0x3000
  }

  // not text.strip()
  predicate Blank(text: string) {
    forall i :: 0 <= i < |text| ==> Whitespace(text[i])
  }
}
