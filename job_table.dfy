/** The `job` table of the database, as the routes and the cleanup sweep use
    it: rows keyed by an auto-incremented id, created, read by filter and
    updated one field group at a time. */
module JobTable {
  import opened JsText

  /** The `status` column. */
  datatype Status =
    | Initializing
    | CheckingWallet
    | PreparingRepository
    | AgentWorking
    | Publishing
    | Completed
    | Failed

  /** The value the column holds, as the GET route sends it. */
  function StatusName(s: Status): string {
    match s
    case Initializing => "INITIALIZING"
    case CheckingWallet => "CHECKING_WALLET"
    case PreparingRepository => "PREPARING_REPOSITORY"
    case AgentWorking => "AGENT_WORKING"
    case Publishing => "PUBLISHING"
    case Completed => "COMPLETED"
    case Failed => "FAILED"
  }

  /** Different statuses are stored as different values. */
  lemma StatusNameInjective(a: Status, b: Status)
    requires StatusName(a) == StatusName(b)
    ensures a == b
  {
  }

  /** One row. `createdAt` is in milliseconds since the epoch. */
  datatype Job = Job(id: nat, url: string, status: Status, prUrl: Option<string>, createdAt: int, cleanedUp: bool)

  /** One `job.update` of the pipeline: the new status and, when given, the
      pull-request URL (an omitted field keeps its value). */
  datatype StatusWrite = StatusWrite(id: nat, status: Status, prUrl: Option<string>)

  function Written(job: Job, w: StatusWrite): (j: Job)
    ensures j.id == job.id && j.url == job.url && j.createdAt == job.createdAt && j.cleanedUp == job.cleanedUp
    ensures j.status == w.status
    ensures j.prUrl == if w.prUrl.Some? then w.prUrl else job.prUrl
  {
    job.(status := w.status, prUrl := if w.prUrl.Some? then w.prUrl else job.prUrl)
  }

  /** The row after a series of writes, oldest first. */
  function WrittenAll(job: Job, ws: seq<StatusWrite>): (j: Job)
    ensures j.id == job.id && j.url == job.url && j.createdAt == job.createdAt && j.cleanedUp == job.cleanedUp
    ensures ws != [] ==> j.status == ws[|ws| - 1].status
    ensures ws == [] ==> j == job
  {
    if ws == [] then job else Written(WrittenAll(job, ws[..|ws| - 1]), ws[|ws| - 1])
  }

  lemma WrittenAllSnoc(job: Job, ws: seq<StatusWrite>, w: StatusWrite)
    ensures WrittenAll(job, ws + [w]) == Written(WrittenAll(job, ws), w)
  {
    assert (ws + [w])[..|ws|] == ws;
  }

  lemma {:induction false} WrittenAllAppend(job: Job, a: seq<StatusWrite>, b: seq<StatusWrite>)
    ensures WrittenAll(job, a + b) == WrittenAll(WrittenAll(job, a), b)
    decreases |b|
  {
    if b == [] {
      assert a + b == a;
    } else {
      InitLast(b);
      ConcatAssoc(a, b[..|b| - 1], [b[|b| - 1]]);
      assert (a + b)[..|a + b| - 1] == a + b[..|b| - 1];
      WrittenAllAppend(job, a, b[..|b| - 1]);
    }
  }

  /** The filters of the two `findMany` queries. */
  datatype Filter = IsCompleted | IsStale(cutoff: int)

  predicate Selects(f: Filter, job: Job) {
    match f
    case IsCompleted => job.status == Completed
    case IsStale(cutoff) => job.createdAt < cutoff && !job.cleanedUp
  }

  /** The ids below `n` of the rows the filter selects, in increasing order. */
  function SelectedIds(jobs: map<nat, Job>, n: nat, f: Filter): (ids: seq<nat>)
    ensures forall i :: 0 <= i < |ids| ==> ids[i] < n && ids[i] in jobs && Selects(f, jobs[ids[i]])
    ensures forall id :: id < n && id in jobs && Selects(f, jobs[id]) ==> id in ids
    ensures forall i, j :: 0 <= i < j < |ids| ==> ids[i] < ids[j]
  {
    if n == 0 then []
    else
      var below := SelectedIds(jobs, n - 1, f);
      if n - 1 in jobs && Selects(f, jobs[n - 1]) then below + [n - 1] else below
  }

  /** The rows with the given ids, in that order. */
  function RowsOf(jobs: map<nat, Job>, ids: seq<nat>): (rows: seq<Job>)
    requires forall i :: 0 <= i < |ids| ==> ids[i] in jobs
    ensures |rows| == |ids|
    ensures forall i :: 0 <= i < |ids| ==> rows[i] == jobs[ids[i]]
  {
    if ids == [] then [] else RowsOf(jobs, ids[..|ids| - 1]) + [jobs[ids[|ids| - 1]]]
  }

  /** Every row is stored under its own id, and every id was handed out. */
  ghost predicate Keyed(jobs: map<nat, Job>, nextId: nat) {
    nextId >= 1 && forall id | id in jobs :: jobs[id].id == id && 1 <= id < nextId
  }

  class JobStore {
    var jobs: map<nat, Job>
    var nextId: nat
    /** Every status write made so far, oldest first. */
    var statusWrites: seq<StatusWrite>

    ghost predicate Valid()
      reads this
    {
      Keyed(jobs, nextId)
    }

    constructor ()
      ensures Valid()
      ensures jobs == map[] && nextId == 1 && statusWrites == []
    {
      jobs := map[];
      nextId := 1;
      statusWrites := [];
    }

    /** `job.create({ data: { url, status: "INITIALIZING" } })`. */
    method Create(url: string, now: int) returns (job: Job)
      requires Valid()
      modifies this
      ensures Valid()
      ensures job == Job(old(nextId), url, Initializing, None, now, false)
      ensures job.id !in old(jobs) && jobs == old(jobs)[job.id := job]
      ensures nextId == old(nextId) + 1 && statusWrites == old(statusWrites)
    {
      job := Job(nextId, url, Initializing, None, now, false);
      jobs := jobs[nextId := job];
      nextId := nextId + 1;
    }

    /** `job.update({ where: { id }, data: { status, prUrl } })` on a row that
        exists (the pipeline only updates the row it created). */
    method SetStatus(w: StatusWrite)
      requires w.id in jobs
      modifies this
      ensures jobs == old(jobs)[w.id := Written(old(jobs)[w.id], w)]
      ensures nextId == old(nextId) && statusWrites == old(statusWrites) + [w]
      ensures old(Valid()) ==> Valid()
    {
      jobs := jobs[w.id := Written(jobs[w.id], w)];
      statusWrites := statusWrites + [w];
    }

    /** `job.update({ where: { id }, data: { cleanedUp: true } })` on a row
        that exists (the sweep only updates rows it has just read). */
    method MarkCleanedUp(id: nat)
      requires id in jobs
      modifies this
      ensures jobs == old(jobs)[id := old(jobs)[id].(cleanedUp := true)]
      ensures nextId == old(nextId) && statusWrites == old(statusWrites)
      ensures old(Valid()) ==> Valid()
    {
      jobs := jobs[id := jobs[id].(cleanedUp := true)];
    }

    /** `job.findMany({ where: f })`, in id order. */
    function FindMany(f: Filter): (rows: seq<Job>)
      reads this
      requires Valid()
      ensures forall i :: 0 <= i < |rows| ==> rows[i].id in jobs && jobs[rows[i].id] == rows[i] && Selects(f, rows[i])
      ensures forall id :: id in jobs && Selects(f, jobs[id]) ==> jobs[id] in rows
      ensures forall i, j :: 0 <= i < j < |rows| ==> rows[i].id < rows[j].id
    {
      var ids := SelectedIds(jobs, nextId, f);
      var rows := RowsOf(jobs, ids);
      assert forall id :: id in jobs && Selects(f, jobs[id]) ==> jobs[id] in rows by {
        forall id | id in jobs && Selects(f, jobs[id]) ensures jobs[id] in rows {
          var i :| 0 <= i < |ids| && ids[i] == id;
          assert rows[i] == jobs[id];
        }
      }
      rows
    }
  }
}
