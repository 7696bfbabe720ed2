/** What pollers and pagers can observe. */
module Queries {
  import opened Domain
  import opened TaskRow
  import opened System
  import opened Shapes
  import opened Rows
  import opened Journal
  import opened Chain
  import opened Safety
  import opened Ordering

  // ---------- One task ----------

  datatype TaskResponse = TaskResponse(
    recording: RecordingId,
    status: Status,
    attempt: int,
    retryOf: Option<TaskId>,
    retries: nat,
    retryWaiting: bool,
    nextAttempt: Option<Time>,
    lastError: Option<Failure>,
    transcript: Option<string>,
    summary: Option<Summary>,
    error: Option<Failure>,
    startedAt: Option<Time>,
    finishedAt: Option<Time>)

  function Or(text: string, default: string): string {
    if text == "" then default else text
  }

  function Respond(t: Task): TaskResponse {
    TaskResponse(
      t.recording, t.status, t.attempt, t.retryOf, t.retries,
      t.nextAttempt.Some?, t.nextAttempt,
      if t.lastError.Some? && t.lastError.value.code != "" && t.lastError.value.message != ""
      then t.lastError else None,
      t.transcript,
      if t.status.Done? then t.summary else None,
      if t.status.Failed? then
        var f := t.error.GetOr(Failure("", ""));
        Some(Failure(Or(f.code, "processing_failed"), Or(f.message, "Task processing failed.")))
      else None,
      t.startedAt, t.finishedAt)
  }

  // None stands for 404.
  function GetTask(db: Tables, t: TaskId): Option<TaskResponse> {
    if t in db.tasks && db.tasks[t].recording in db.recordings
       && db.recordings[db.tasks[t].recording].deletedAt.None?
    then Some(Respond(db.tasks[t])) else None
  }

  // What each single answer says.
  lemma AnswerIsConsistent(w: World, t: TaskId)
    requires RowsInv(w) && GetTask(w.db, t).Some?
    ensures var a := GetTask(w.db, t).value;
            && (a.summary.Some? <==> a.status.Done?)
            && (a.error.Some? <==> a.status.Failed?)
            && (a.finishedAt.Some? <==> Terminal(a.status))
            && (a.startedAt.None? <==> a.status.Pending?)
            && (a.retryWaiting <==> Active(a.status) && w.db.tasks[t].token.None?)
            && (a.transcript.Some? ==> a.status.Summarizing? || Terminal(a.status))
            && (a.status.Done? ==> a.transcript.Some?)
  {
    assert RowInv(w, t);
  }

  // The answer to a poller is 404 exactly for a task that is not there or whose recording is hidden.
  lemma FoundExactly(w: World, t: TaskId)
    requires RowsInv(w)
    ensures GetTask(w.db, t).Some? <==> t in w.db.tasks && Visible(w, w.db.tasks[t].recording)
  {
  }

  // A shown error keeps code and message of the failure, each in its place, unless it is empty.
  predicate Shows(error: Option<Failure>, failure: Failure) {
    && error.Some?
    && (if failure.code != "" then error.value.code == failure.code else error.value.code == "processing_failed")
    && (if failure.message != "" then error.value.message == failure.message
        else error.value.message == "Task processing failed.")
  }

  // In every run of the service, what a poller is told of a task are the writes it has accepted.
  lemma PollerIsToldTheStory(w: World, es: seq<Event>, t: TaskId)
    requires Start(w) && GetTask(Run(w, es).db, t).Some?
    ensures t in Run(w, es).db.tasks
    ensures var a, ws := GetTask(Run(w, es).db, t).value, Writes(w, es, t);
            && a.status == (if ws == [] then Pending else if Last(ws).CompleteTask? then Done
                            else if GaveUp(ws) then Failed else if TextOf(ws).Some? then Summarizing else Transcribing)
            && a.transcript == TextOf(ws)
            && a.summary == (if ws != [] && Last(ws).CompleteTask? then Some(Last(ws).summary) else None)
            && (if GaveUp(ws) then Shows(a.error, Last(ws).failure) else a.error.None?)
            && (a.lastError.Some? ==> a.lastError == FailureOf(ws))
            && (a.lastError.Some? <==>
                  && ws != [] && !Last(ws).CompleteTask? && !GaveUp(ws) && FailureOf(ws).Some?
                  && FailureOf(ws).value.code != "" && FailureOf(ws).value.message != "")
            && a.retries == RetriesIn(ws)
            && (a.retryWaiting <==> ws != [] && Last(ws).FailTask? && !GaveUp(ws))
            && a.nextAttempt == (if a.retryWaiting then Some(Last(ws).at + Wait(w.cfg.base, RetriesIn(ws))) else None)
            && (ws != [] ==> ws[0].ClaimTask?)
            && a.startedAt == (if ws == [] then None else Some(ws[0].at))
            && a.finishedAt == (if ws != [] && (Last(ws).CompleteTask? || GaveUp(ws)) then Some(Last(ws).at) else None)
    ensures var a, row := GetTask(Run(w, es).db, t).value, Run(w, es).db.tasks[t];
            a.recording == row.recording && a.attempt == row.attempt && a.retryOf == row.retryOf
  {
    RowIsTold(w, es, t);
    JournalIsOfQueueEvents(w, es, t);
  }

  function Rank(s: Status): int {
    match s
    case Pending => 0
    case Transcribing => 1
    case Summarizing => 2
    case Done => 3
    case Failed => 3
  }

  // A later answer never contradicts an earlier one.
  predicate Follows(a: TaskResponse, b: TaskResponse) {
    && Rank(a.status) <= Rank(b.status)
    && (Terminal(a.status) ==> b == a)
    && (a.summary.Some? ==> b.summary == a.summary)
    && (a.transcript.Some? ==> b.transcript == a.transcript)
    && (a.startedAt.Some? ==> b.startedAt == a.startedAt)
    && a.retries <= b.retries
    && b.recording == a.recording && b.attempt == a.attempt && b.retryOf == a.retryOf
  }

  lemma WriteFollows(cfg: Config, t: Task, op: Op, now: Time)
    requires Shape(t) && Accepts(t, op, now)
    ensures Follows(Respond(t), Respond(Apply(cfg, t, op, now)))
  {
  }

  lemma AnswersFollowStep(w: World, e: Event, t: TaskId)
    requires RowsInv(w) && GetTask(Next(w, e).db, t).Some? && t in w.past.usedTasks
    ensures GetTask(w.db, t).Some?
    ensures Follows(GetTask(w.db, t).value, GetTask(Next(w, e).db, t).value)
  {
    RowsKept(w, e);
    AnswersFollow(w, e, Next(w, e), t);
  }

  lemma AnswersFollow(w: World, e: Event, w': World, t: TaskId)
    requires RowsInv(w) && TableStep(w, e, w') && GetTask(w'.db, t).Some? && t in w.past.usedTasks
    ensures GetTask(w.db, t).Some?
    ensures Follows(GetTask(w.db, t).value, GetTask(w'.db, t).value)
  {
    assert RowStep(w, e, w', t);
    assert RowInv(w, t);
    assert Visible(w', w.db.tasks[t].recording);
    if Granted(w, e) && QueueTask(e) == t {
      WriteFollows(w.cfg, w.db.tasks[t], QueueOp(e), e.at);
    }
  }

  // Over any run a poller never sees a task go back, change a published result, or come back
  // from 404.
  lemma {:induction false} PollerMonotone(w: World, es: seq<Event>, t: TaskId)
    requires RowsInv(w) && t in w.past.usedTasks && GetTask(Run(w, es).db, t).Some?
    ensures GetTask(w.db, t).Some?
    ensures Follows(GetTask(w.db, t).value, GetTask(Run(w, es).db, t).value)
    decreases |es|
  {
    if es != [] {
      RowsKept(w, es[0]);
      assert RowStep(w, es[0], Next(w, es[0]), t);
      PollerMonotone(Next(w, es[0]), es[1..], t);
      AnswersFollowStep(w, es[0], t);
    }
  }

  // ---------- The latest task ----------

  ghost predicate IsLatest(tasks: map<TaskId, Task>, r: RecordingId, t: TaskId) {
    && t in tasks && tasks[t].recording == r
    && forall u :: u in tasks && tasks[u].recording == r ==> tasks[u].attempt <= tasks[t].attempt
  }

  // ORDER BY attempt_no DESC LIMIT 1
  ghost function LatestTask(tasks: map<TaskId, Task>, r: RecordingId): (found: Option<TaskId>)
    ensures found.Some? ==> IsLatest(tasks, r, found.value)
  {
    if t :| IsLatest(tasks, r, t) then Some(t) else None
  }

  lemma {:induction false} LatestExists(tasks: map<TaskId, Task>, r: RecordingId, among: set<TaskId>)
    requires among <= tasks.Keys && among != {}
    requires forall t :: t in among ==> tasks[t].recording == r
    ensures exists t :: t in among && forall u :: u in among ==> tasks[u].attempt <= tasks[t].attempt
    decreases |among|
  {
    var t := Pick(among);
    if among != {t} {
      LatestExists(tasks, r, among - {t});
      var l :| l in among - {t} && forall u :: u in among - {t} ==> tasks[u].attempt <= tasks[l].attempt;
      var best := if tasks[t].attempt <= tasks[l].attempt then l else t;
      assert best in among && forall u :: u in among ==> tasks[u].attempt <= tasks[best].attempt;
    } else {
      assert t in among && forall u :: u in among ==> tasks[u].attempt <= tasks[t].attempt;
    }
  }

  // Every recording is joined to exactly one task, the one with the highest attempt; any
  // unfinished task is that one.
  lemma LatestIsTheOpenOne(w: World, r: RecordingId)
    requires Inv(w) && r in w.db.recordings
    ensures LatestTask(w.db.tasks, r).Some?
    ensures forall t :: IsLatest(w.db.tasks, r, t) ==> LatestTask(w.db.tasks, r) == Some(t)
    ensures forall t :: t in w.db.tasks && w.db.tasks[t].recording == r && !w.db.tasks[t].status.Failed? ==>
                          LatestTask(w.db.tasks, r) == Some(t)
  {
    var tasks := w.db.tasks;
    var mine := set t | t in tasks && tasks[t].recording == r;
    assert IsFirst(tasks, r, w.past.firsts[r]);
    assert w.past.firsts[r] in mine;
    LatestExists(tasks, r, mine);
    var l :| l in mine && forall u :: u in mine ==> tasks[u].attempt <= tasks[l].attempt;
    assert IsLatest(tasks, r, l);
    forall t | IsLatest(tasks, r, t) ensures LatestTask(tasks, r) == Some(t) {
      LatestIsUnique(tasks, r, t, LatestTask(tasks, r).value);
    }
    forall t | t in tasks && tasks[t].recording == r && !tasks[t].status.Failed?
      ensures LatestTask(tasks, r) == Some(t)
    {
      OpenIsLatest(tasks, r, t, LatestTask(tasks, r).value);
    }
  }

  lemma LatestIsUnique(tasks: map<TaskId, Task>, r: RecordingId, t: TaskId, u: TaskId)
    requires Chained(tasks) && IsLatest(tasks, r, t) && IsLatest(tasks, r, u)
    ensures t == u
  {
    assert tasks[t].attempt == tasks[u].attempt;
  }

  lemma OpenIsLatest(tasks: map<TaskId, Task>, r: RecordingId, t: TaskId, latest: TaskId)
    requires Chained(tasks) && IsLatest(tasks, r, latest)
    requires t in tasks && tasks[t].recording == r && !tasks[t].status.Failed?
    ensures t == latest
  {
    if tasks[t].attempt < tasks[latest].attempt {
      EarlierAttemptsFailed(tasks, t, latest);
    }
  }

  // ---------- Pages ----------

  datatype ListItem = ListItem(
    recording: RecordingId,
    filename: string,
    size: nat,
    createdAt: Time,
    latest: Option<(TaskId, Status, int)>)

  datatype ListResponse = ListResponse(items: seq<ListItem>, page: int, size: int, total: nat)

  function VisibleIds(db: Tables): set<RecordingId> {
    set r | r in db.recordings && db.recordings[r].deletedAt.None?
  }

  function CreatedAt(db: Tables): (at: map<RecordingId, Time>)
    ensures at.Keys == db.recordings.Keys
  {
    map r | r in db.recordings :: db.recordings[r].createdAt
  }

  function Reversed(ids: seq<int>): (out: seq<int>)
    ensures |out| == |ids| && forall i :: 0 <= i < |ids| ==> out[i] == ids[|ids| - 1 - i]
  {
    seq(|ids|, i requires 0 <= i < |ids| => ids[|ids| - 1 - i])
  }

  // ORDER BY created_at DESC, id DESC
  function Listing(db: Tables): (ids: seq<RecordingId>)
    ensures |ids| == |VisibleIds(db)|
  {
    Reversed(Ascending(VisibleIds(db), CreatedAt(db)))
  }

  ghost function Item(db: Tables, r: RecordingId): ListItem
    requires r in db.recordings
  {
    var row := db.recordings[r];
    var t := LatestTask(db.tasks, r);
    ListItem(r, row.filename, row.audio.size, row.createdAt,
      if t.Some? then Some((t.value, db.tasks[t.value].status, db.tasks[t.value].attempt)) else None)
  }

  ghost function Items(db: Tables, ids: seq<RecordingId>): (items: seq<ListItem>)
    requires forall i :: 0 <= i < |ids| ==> ids[i] in db.recordings
    ensures |items| == |ids| && forall i :: 0 <= i < |ids| ==> items[i] == Item(db, ids[i])
  {
    seq(|ids|, i requires 0 <= i < |ids| => Item(db, ids[i]))
  }

  // An item shows the recording as it is, with the task of its highest attempt.
  ghost predicate ItemIsTrue(db: Tables, item: ListItem) {
    && item.recording in db.recordings && db.recordings[item.recording].deletedAt.None?
    && var row := db.recordings[item.recording];
    && item.filename == row.filename && item.size == row.audio.size && item.createdAt == row.createdAt
    && exists t :: IsLatest(db.tasks, item.recording, t)
                   && item.latest == Some((t, db.tasks[t].status, db.tasks[t].attempt))
  }

  // Every item of every page is true, and the total is the number of visible recordings.
  lemma PagesAreTrue(w: World, page: int, size: int)
    requires Inv(w) && page >= 1 && size >= 1
    ensures var answer := ListRecordings(w.db, page, size);
            && answer.page == page && answer.size == size
            && answer.total == |set r | r in w.db.recordings && w.db.recordings[r].deletedAt.None?|
            && (forall i :: 0 <= i < |answer.items| ==> ItemIsTrue(w.db, answer.items[i]))
            && |answer.items| <= size
  {
    ListingOk(w.db);
    PageIsSlice(w.db, page, size);
    var low := Min((page - 1) * size, |AllItems(w.db)|);
    var items := ListRecordings(w.db, page, size).items;
    forall i | 0 <= i < |items| ensures ItemIsTrue(w.db, items[i]) {
      assert items[i] == AllItems(w.db)[low + i] == Item(w.db, Listing(w.db)[low + i]);
      assert Listing(w.db)[low + i] in Listing(w.db);
      TrueItem(w, Listing(w.db)[low + i]);
    }
  }

  lemma TrueItem(w: World, r: RecordingId)
    requires Inv(w) && r in VisibleIds(w.db)
    ensures ItemIsTrue(w.db, Item(w.db, r))
  {
    LatestIsTheOpenOne(w, r);
    assert IsLatest(w.db.tasks, r, LatestTask(w.db.tasks, r).value);
  }

  lemma ListingOk(db: Tables)
    ensures var ids := Listing(db);
            && (forall r :: r in ids <==> r in VisibleIds(db))
            && (forall i :: 0 <= i < |ids| ==> ids[i] in db.recordings)
            && (forall i, j :: 0 <= i < j < |ids| ==> Before(CreatedAt(db), ids[j], ids[i]))
  {
    var up := Ascending(VisibleIds(db), CreatedAt(db));
    var ids := Listing(db);
    AscendingIsSorted(VisibleIds(db), CreatedAt(db));
    forall i | 0 <= i < |ids| ensures ids[i] in VisibleIds(db) {
      assert ids[i] == up[|up| - 1 - i];
      assert up[|up| - 1 - i] in up;
    }
    forall r | r in VisibleIds(db) ensures r in ids {
      var k :| 0 <= k < |up| && up[k] == r;
      assert ids[|up| - 1 - k] == r;
    }
  }

  function Min(a: int, b: int): int {
    if a < b then a else b
  }

  ghost function ListRecordings(db: Tables, page: int, size: int): ListResponse
    requires page >= 1 && size >= 1
  {
    ListingOk(db);
    var total := |VisibleIds(db)|;
    var offset := (page - 1) * size;
    if offset >= total || offset < 0 then ListResponse([], page, size, total)
    else
      ListResponse(Items(db, Listing(db)[offset..Min(offset + size, total)]), page, size, total)
  }

  // Pages 1..n, one after the other.
  ghost function Pages(db: Tables, size: int, n: nat): seq<ListItem>
    requires size >= 1
  {
    if n == 0 then [] else Pages(db, size, n - 1) + ListRecordings(db, n, size).items
  }

  ghost function AllItems(db: Tables): seq<ListItem> {
    ListingOk(db);
    Items(db, Listing(db))
  }

  lemma PageIsSlice(db: Tables, page: int, size: int)
    requires page >= 1 && size >= 1
    ensures 0 <= (page - 1) * size
    ensures ListRecordings(db, page, size).items ==
            AllItems(db)[Min((page - 1) * size, |AllItems(db)|)..Min((page - 1) * size + size, |AllItems(db)|)]
  {
    ListingOk(db);
    ProductMonotone(0, page - 1, size);
    ItemsOfSlice(db, Listing(db), Min((page - 1) * size, |Listing(db)|), Min((page - 1) * size + size, |Listing(db)|));
  }

  lemma ItemsOfSlice(db: Tables, ids: seq<RecordingId>, low: nat, high: nat)
    requires low <= high <= |ids| && forall i :: 0 <= i < |ids| ==> ids[i] in db.recordings
    ensures Items(db, ids[low..high]) == Items(db, ids)[low..high]
  {
  }

  lemma {:induction false} PagesArePrefix(db: Tables, size: int, n: nat)
    requires size >= 1
    ensures 0 <= n * size
    ensures Pages(db, size, n) == AllItems(db)[..Min(n * size, |AllItems(db)|)]
  {
    if n > 0 {
      PagesArePrefix(db, size, n - 1);
      var low := (n - 1) * size;
      assert low + size == n * size;
      NextPage(db, size, n, low);
    }
  }

  lemma NextPage(db: Tables, size: int, n: nat, low: nat)
    requires n >= 1 && size >= 1 && low == (n - 1) * size
    requires Pages(db, size, n - 1) == AllItems(db)[..Min(low, |AllItems(db)|)]
    ensures Pages(db, size, n) == AllItems(db)[..Min(low + size, |AllItems(db)|)]
  {
    PageIsSlice(db, n, size);
    Joined(AllItems(db), Min(low, |AllItems(db)|), Min(low + size, |AllItems(db)|));
  }

  lemma Joined<T>(s: seq<T>, low: nat, high: nat)
    requires low <= high <= |s|
    ensures s[..low] + s[low..high] == s[..high]
  {
  }

  lemma LaterPageIsEmpty(db: Tables, page: int, size: int, n: nat)
    requires page > n && size >= 1 && n * size >= |AllItems(db)|
    ensures ListRecordings(db, page, size).items == []
  {
    PageIsSlice(db, page, size);
    ProductMonotone(n, page - 1, size);
  }

  lemma ProductMonotone(low: int, high: int, factor: int)
    requires low <= high && factor >= 1
    ensures low * factor <= high * factor
  {
  }

  // All items: each visible recording exactly once, newest first.
  lemma AllItemsOk(db: Tables)
    ensures |AllItems(db)| == |VisibleIds(db)|
    ensures forall r :: r in VisibleIds(db) <==>
                          exists i :: 0 <= i < |AllItems(db)| && AllItems(db)[i].recording == r
    ensures forall i, j :: 0 <= i < j < |AllItems(db)| ==>
                             && AllItems(db)[i].recording in db.recordings
                             && AllItems(db)[j].recording in db.recordings
                             && Before(CreatedAt(db), AllItems(db)[j].recording, AllItems(db)[i].recording)
  {
    ListingOk(db);
    forall r | r in VisibleIds(db)
      ensures exists i :: 0 <= i < |AllItems(db)| && AllItems(db)[i].recording == r
    {
      var i :| 0 <= i < |Listing(db)| && Listing(db)[i] == r;
      assert AllItems(db)[i].recording == r;
    }
  }

  // Created later, or at the same instant with the higher id.
  predicate Newer(db: Tables, r: RecordingId, s: RecordingId)
    requires r in db.recordings && s in db.recordings
  {
    || db.recordings[r].createdAt > db.recordings[s].createdAt
    || (db.recordings[r].createdAt == db.recordings[s].createdAt && r > s)
  }

  lemma NewestFirst(db: Tables)
    ensures forall r :: r in db.recordings && db.recordings[r].deletedAt.None? <==>
                          exists i :: 0 <= i < |AllItems(db)| && AllItems(db)[i].recording == r
    ensures forall i, j :: 0 <= i < j < |AllItems(db)| ==>
                             && AllItems(db)[i].recording in db.recordings
                             && AllItems(db)[j].recording in db.recordings
                             && Newer(db, AllItems(db)[i].recording, AllItems(db)[j].recording)
  {
    AllItemsOk(db);
    hide AllItems;
    forall r
      ensures r in db.recordings && db.recordings[r].deletedAt.None? <==>
                exists i :: 0 <= i < |AllItems(db)| && AllItems(db)[i].recording == r
    {
      assert r in VisibleIds(db) <==> r in db.recordings && db.recordings[r].deletedAt.None?;
    }
    forall i, j | 0 <= i < j < |AllItems(db)|
      ensures Newer(db, AllItems(db)[i].recording, AllItems(db)[j].recording)
    {
      assert Before(CreatedAt(db), AllItems(db)[j].recording, AllItems(db)[i].recording);
    }
  }

  // For a fixed state and any page size, the pages up to the last partition the visible
  // recordings: each appears exactly once, newest first, and every later page is empty.
  lemma PaginationPartitions(db: Tables, size: int, n: nat)
    requires size >= 1 && n * size >= |VisibleIds(db)|
    ensures Pages(db, size, n) == AllItems(db)
    ensures |AllItems(db)| == |VisibleIds(db)|
    ensures forall r :: r in db.recordings && db.recordings[r].deletedAt.None? <==>
                          exists i :: 0 <= i < |AllItems(db)| && AllItems(db)[i].recording == r
    ensures forall i, j :: 0 <= i < j < |AllItems(db)| ==>
                             && AllItems(db)[i].recording in db.recordings
                             && AllItems(db)[j].recording in db.recordings
                             && Newer(db, AllItems(db)[i].recording, AllItems(db)[j].recording)
    ensures forall page :: page > n ==> ListRecordings(db, page, size).items == []
  {
    hide Pages, ListRecordings, AllItems;
    AllItemsOk(db);
    NewestFirst(db);
    PagesArePrefix(db, size, n);
    assert AllItems(db)[..|AllItems(db)|] == AllItems(db);
    forall page | page > n ensures ListRecordings(db, page, size).items == [] {
      LaterPageIsEmpty(db, page, size, n);
    }
  }
}
