/** The clean-up sweep that frees disk space: every job older than an hour
    whose repository has not been cleaned up yet has its cloned folder
    deleted and is marked as cleaned up; a failure on one job is logged and
    the sweep goes on with the next. */
module Cleanup {
  import opened JsText
  import opened JobLog
  import opened JobTable
  import RepositoryName

  /** One hour in milliseconds: jobs created before `now - Hour` are old. */
  const Hour: int := 60 * 60 * 1000

  /** `path.join(dir, name)`: an empty name adds nothing (normalisation of
      "." and ".." segments is not part of this model). */
  function RepositoryPath(dir: string, name: string): (path: string)
    ensures name == [] ==> path == dir
    ensures name != [] ==> path == dir + "/" + name
  {
    if name == [] then dir else dir + "/" + name
  }

  /** What the sweep's collaborators answer: the job directory for an id
      (which depends on the environment), the folders whose removal fails and
      the jobs whose `cleanedUp` update fails. */
  datatype Env = Env(jobDir: nat -> string, rmFails: set<string>, updateFails: set<nat>)

  /** The folder the sweep deletes for a job. */
  function PathOf(env: Env, job: Job): string {
    RepositoryPath(env.jobDir(job.id), RepositoryName.ExtractRepositoryName(job.url))
  }

  function DeletedLine(id: nat): string { "Deleted repository folder for job " + NatToString(id) }
  function AbsentLine(id: nat): string { "Repository folder doesn't exist for job " + NatToString(id) }
  function MarkedLine(id: nat): string { "Marked job " + NatToString(id) + " as cleaned up" }
  function FailedLine(id: nat): string { "Failed to cleanup job " + NatToString(id) }
  function FoundLine(n: nat): string { "Found " + NatToString(n) + " old jobs to clean up" }
  const StartLine := "Starting cleanup of old repository folders"
  const DoneLine := "Completed cleanup of old repository folders"
  const QueryFailedLine := "Error during repository cleanup"

  /** The table, the folders on disk and the lines logged so far. */
  datatype Sweep = Sweep(jobs: map<nat, Job>, folders: set<string>, log: seq<Entry>)

  /** `fs.access` finds the folder and `fs.rm` removes it. */
  predicate Deleted(folders: set<string>, job: Job, env: Env) {
    PathOf(env, job) in folders && PathOf(env, job) !in env.rmFails
  }

  /** The `cleanedUp` update goes through. */
  predicate Marked(jobs: map<nat, Job>, job: Job, env: Env) {
    job.id in jobs && job.id !in env.updateFails
  }

  /** The two lines one job adds: the folder's fate (a failed removal is
      reported like a missing folder), then the mark or the failure. */
  function JobEntries(jobs: map<nat, Job>, folders: set<string>, job: Job, env: Env): seq<Entry> {
    [FolderEntry(Deleted(folders, job, env), job.id), MarkEntry(Marked(jobs, job, env), job.id)]
  }

  /** The line about the folder: deleted, or reported missing. */
  function FolderEntry(deleted: bool, id: nat): Entry {
    if deleted then Entry(Info, DeletedLine(id)) else Entry(Debug, AbsentLine(id))
  }

  /** The line about the row: marked, or the failed update. */
  function MarkEntry(marked: bool, id: nat): Entry {
    if marked then Entry(Debug, MarkedLine(id)) else Entry(Error, FailedLine(id))
  }

  /** One pass of the loop body. */
  function SweepJob(s: Sweep, job: Job, env: Env): Sweep {
    Sweep(if Marked(s.jobs, job, env) then s.jobs[job.id := s.jobs[job.id].(cleanedUp := true)] else s.jobs,
          if Deleted(s.folders, job, env) then s.folders - {PathOf(env, job)} else s.folders,
          s.log + JobEntries(s.jobs, s.folders, job, env))
  }

  /** The loop over `rows`, in order. */
  function SweepAll(s: Sweep, rows: seq<Job>, env: Env): Sweep {
    if rows == [] then s else SweepJob(SweepAll(s, rows[..|rows| - 1], env), rows[|rows| - 1], env)
  }

  /** The rows `findMany` returns for the sweep. */
  function StaleRows(jobs: map<nat, Job>, nextId: nat, cutoff: int): seq<Job> {
    RowsOf(jobs, SelectedIds(jobs, nextId, IsStale(cutoff)))
  }

  /** The folders still on disk. */
  class FileSystem {
    var folders: set<string>

    constructor (folders: set<string>)
      ensures this.folders == folders
    {
      this.folders := folders;
    }

    /** `fs.access(path)` then `fs.rm(path, { recursive: true, force: true })`;
        `rmFails` says whether the removal throws. */
    method Remove(path: string, rmFails: bool) returns (deleted: bool)
      modifies this
      ensures deleted == (path in old(folders) && !rmFails)
      ensures folders == if deleted then old(folders) - {path} else old(folders)
    {
      deleted := path in folders && !rmFails;
      if deleted {
        folders := folders - {path};
      }
    }
  }

  /** One iteration: delete the folder if it is there, then mark the job; a
      failing mark is logged and swallowed. */
  method SweepOne(store: JobStore, fs: FileSystem, logger: JobLogger, job: Job, env: Env)
    requires store.Valid()
    modifies store, fs, logger
    ensures store.Valid() && store.nextId == old(store.nextId) && store.statusWrites == old(store.statusWrites)
    ensures Sweep(store.jobs, fs.folders, logger.entries)
            == SweepJob(Sweep(old(store.jobs), old(fs.folders), old(logger.entries)), job, env)
  {
    ghost var before := logger.entries;
    var path := RepositoryPath(env.jobDir(job.id), RepositoryName.ExtractRepositoryName(job.url));
    var deleted := fs.Remove(path, path in env.rmFails);
    if deleted {
      logger.Log(Info, DeletedLine(job.id));
    } else {
      logger.Log(Debug, AbsentLine(job.id));
    }
    if job.id in store.jobs && job.id !in env.updateFails {
      store.MarkCleanedUp(job.id);
      logger.Log(Debug, MarkedLine(job.id));
    } else {
      logger.Log(Error, FailedLine(job.id));
    }
    AppendTwo(before, logger.entries[|before|], logger.entries[|before| + 1]);
  }

  /** `cleanupOldRepositories`. `query` is the outcome of the `findMany`
      call; when it fails the error is logged and thrown again. */
  method CleanupOldRepositories(store: JobStore, fs: FileSystem, logger: JobLogger, env: Env, query: Outcome, now: int)
    returns (r: Outcome)
    requires store.Valid()
    modifies store, fs, logger
    ensures r == query
    ensures store.Valid() && store.nextId == old(store.nextId) && store.statusWrites == old(store.statusWrites)
    ensures query.Fail? ==>
              store.jobs == old(store.jobs) && fs.folders == old(fs.folders)
              && logger.entries == old(logger.entries) + [Entry(Info, StartLine), Entry(Error, QueryFailedLine)]
    ensures query.Pass? ==>
              var rows := StaleRows(old(store.jobs), old(store.nextId), now - Hour);
              var after := SweepAll(Sweep(old(store.jobs), old(fs.folders), []), rows, env);
              store.jobs == after.jobs && fs.folders == after.folders
              && logger.entries == old(logger.entries) + [Entry(Info, StartLine), Entry(Info, FoundLine(|rows|))]
                                   + after.log + [Entry(Info, DoneLine)]
  {
    logger.Log(Info, StartLine);
    if query.Fail? {
      logger.Log(Error, QueryFailedLine);
      return query;
    }
    var rows := store.FindMany(IsStale(now - Hour));
    assert rows == StaleRows(store.jobs, store.nextId, now - Hour);
    logger.Log(Info, FoundLine(|rows|));
    AppendTwo(old(logger.entries), Entry(Info, StartLine), Entry(Info, FoundLine(|rows|)));
    SweepRows(store, fs, logger, rows, env);
    logger.Log(Info, DoneLine);
    r := Pass;
  }

  /** The loop over the rows `findMany` returned. */
  method SweepRows(store: JobStore, fs: FileSystem, logger: JobLogger, rows: seq<Job>, env: Env)
    requires store.Valid()
    modifies store, fs, logger
    ensures store.Valid() && store.nextId == old(store.nextId) && store.statusWrites == old(store.statusWrites)
    ensures var after := SweepAll(Sweep(old(store.jobs), old(fs.folders), []), rows, env);
            store.jobs == after.jobs && fs.folders == after.folders
            && logger.entries == old(logger.entries) + after.log
  {
    ghost var s0 := Sweep(store.jobs, fs.folders, []);
    ghost var head := logger.entries;
    var i := 0;
    while i < |rows|
      invariant 0 <= i <= |rows|
      invariant store.Valid() && store.nextId == old(store.nextId) && store.statusWrites == old(store.statusWrites)
      invariant store.jobs == SweepAll(s0, rows[..i], env).jobs
      invariant fs.folders == SweepAll(s0, rows[..i], env).folders
      invariant logger.entries == head + SweepAll(s0, rows[..i], env).log
    {
      ghost var prev := SweepAll(s0, rows[..i], env);
      SweepOne(store, fs, logger, rows[i], env);
      assert rows[..i + 1][..i] == rows[..i];
      ConcatAssoc(head, prev.log, JobEntries(prev.jobs, prev.folders, rows[i], env));
      i := i + 1;
    }
    assert rows[..|rows|] == rows;
  }

  // ---------------------------------------------------------------------------
  // What a sweep leaves

  /** The job is among the rows the sweep went through. */
  predicate Listed(rows: seq<Job>, id: nat) {
    exists k :: 0 <= k < |rows| && rows[k].id == id
  }

  /** The folders whose removal the sweep attempts and which do not fail. */
  function Removable(rows: seq<Job>, env: Env): set<string> {
    set k | 0 <= k < |rows| && PathOf(env, rows[k]) !in env.rmFails :: PathOf(env, rows[k])
  }

  lemma ListedSnoc(init: seq<Job>, last: Job, id: nat)
    ensures Listed(init + [last], id) <==> Listed(init, id) || last.id == id
  {
    var rows := init + [last];
    if Listed(init, id) {
      var k :| 0 <= k < |init| && init[k].id == id;
      assert rows[k] == init[k];
    }
    if Listed(rows, id) && !Listed(init, id) {
      var k :| 0 <= k < |rows| && rows[k].id == id;
    }
    assert rows[|init|] == last;
  }

  /** No row appears or disappears. */
  lemma {:induction false} SweepAllKeys(s: Sweep, rows: seq<Job>, env: Env, id: nat)
    ensures id in SweepAll(s, rows, env).jobs <==> id in s.jobs
    decreases |rows|
  {
    if rows != [] {
      SweepAllKeys(s, rows[..|rows| - 1], env, id);
    }
  }

  /** The sweep marks exactly the listed jobs whose update goes through and
      leaves every other row as it was; no row appears or disappears. */
  lemma {:induction false} SweepAllJobs(s: Sweep, rows: seq<Job>, env: Env)
    ensures SweepAll(s, rows, env).jobs.Keys == s.jobs.Keys
    ensures forall id | id in s.jobs ::
              SweepAll(s, rows, env).jobs[id]
              == if Listed(rows, id) && id !in env.updateFails then s.jobs[id].(cleanedUp := true) else s.jobs[id]
    decreases |rows|
  {
    if rows != [] {
      var init, last := rows[..|rows| - 1], rows[|rows| - 1];
      SweepAllJobs(s, init, env);
      InitLast(rows);
      forall id | id in s.jobs
        ensures SweepAll(s, rows, env).jobs[id]
                == if Listed(rows, id) && id !in env.updateFails then s.jobs[id].(cleanedUp := true) else s.jobs[id]
      {
        ListedSnoc(init, last, id);
      }
    }
  }

  /** The sweep removes exactly the folders it finds and can remove. */
  lemma {:induction false} SweepAllFolders(s: Sweep, rows: seq<Job>, env: Env)
    ensures SweepAll(s, rows, env).folders == s.folders - Removable(rows, env)
    decreases |rows|
  {
    if rows != [] {
      var init, last := rows[..|rows| - 1], rows[|rows| - 1];
      SweepAllFolders(s, init, env);
      InitLast(rows);
      RemovableSnoc(init, last, env);
    }
  }

  lemma RemovableSnoc(init: seq<Job>, last: Job, env: Env)
    ensures Removable(init + [last], env)
            == Removable(init, env) + (if PathOf(env, last) !in env.rmFails then {PathOf(env, last)} else {})
  {
    var rows := init + [last];
    var extra := if PathOf(env, last) !in env.rmFails then {PathOf(env, last)} else {};
    forall path | path in Removable(rows, env) ensures path in Removable(init, env) + extra {
      var k :| 0 <= k < |rows| && PathOf(env, rows[k]) !in env.rmFails && path == PathOf(env, rows[k]);
      if k < |init| {
        assert rows[k] == init[k];
      }
    }
    forall path | path in Removable(init, env) + extra ensures path in Removable(rows, env) {
      if path in Removable(init, env) {
        var k :| 0 <= k < |init| && PathOf(env, init[k]) !in env.rmFails && path == PathOf(env, init[k]);
        assert rows[k] == init[k];
      } else {
        assert rows[|init|] == last;
      }
    }
  }

  /** Each job adds two lines. */
  lemma {:induction false} SweepAllLogLength(s: Sweep, rows: seq<Job>, env: Env)
    ensures |SweepAll(s, rows, env).log| == |s.log| + 2 * |rows|
    decreases |rows|
  {
    if rows != [] {
      SweepAllLogLength(s, rows[..|rows| - 1], env);
    }
  }

  /** The lines logged before the sweep stay in front. */
  lemma {:induction false} SweepAllLogPrefix(s: Sweep, rows: seq<Job>, env: Env)
    ensures |SweepAll(s, rows, env).log| >= |s.log|
    ensures SweepAll(s, rows, env).log[..|s.log|] == s.log
    decreases |rows|
  {
    if rows != [] {
      var init := rows[..|rows| - 1];
      SweepAllLogPrefix(s, init, env);
      var prev := SweepAll(s, init, env);
      PrefixOfAppend(prev.log, JobEntries(prev.jobs, prev.folders, rows[|rows| - 1], env), |s.log|);
    }
  }

  /** The second line the `k`-th job adds is its mark, or the failure when
      its update throws. */
  lemma {:induction false} SweepAllLogLine(s: Sweep, rows: seq<Job>, env: Env, k: nat)
    requires k < |rows|
    ensures |SweepAll(s, rows, env).log| == |s.log| + 2 * |rows|
    ensures SweepAll(s, rows, env).log[|s.log| + 2 * k + 1]
            == MarkEntry(rows[k].id in s.jobs && rows[k].id !in env.updateFails, rows[k].id)
    decreases |rows|
  {
    var init, last := rows[..|rows| - 1], rows[|rows| - 1];
    SweepAllLogLength(s, init, env);
    SweepAllLogLength(s, rows, env);
    var prev := SweepAll(s, init, env);
    var e := JobEntries(prev.jobs, prev.folders, last, env);
    var log := SweepAll(s, rows, env).log;
    assert log == prev.log + e;
    var i := |s.log| + 2 * k + 1;
    if k < |init| {
      SweepAllLogLine(s, init, env, k);
      IndexOfAppend(prev.log, e, i);
      assert log[i] == prev.log[i];
      assert rows[k] == init[k];
    } else {
      assert rows[k] == last && i == |prev.log| + 1;
      SweepAllKeys(s, init, env, last.id);
      SecondLine(prev.log, prev.jobs, prev.folders, last, env);
    }
  }

  /** Each job's second line is the mark, or the failure when its update
      throws; the lines logged before the sweep stay in front. */
  lemma SweepAllLog(s: Sweep, rows: seq<Job>, env: Env)
    ensures var log := SweepAll(s, rows, env).log;
            |log| == |s.log| + 2 * |rows| && log[..|s.log|] == s.log
            && forall k :: 0 <= k < |rows| ==>
                 log[|s.log| + 2 * k + 1]
                 == MarkEntry(rows[k].id in s.jobs && rows[k].id !in env.updateFails, rows[k].id)
  {
    SweepAllLogLength(s, rows, env);
    SweepAllLogPrefix(s, rows, env);
    forall k | 0 <= k < |rows|
      ensures SweepAll(s, rows, env).log[|s.log| + 2 * k + 1]
              == MarkEntry(rows[k].id in s.jobs && rows[k].id !in env.updateFails, rows[k].id)
    {
      SweepAllLogLine(s, rows, env, k);
    }
  }

  /** The second line a job adds says whether it was marked. */
  lemma SecondLine(log: seq<Entry>, jobs: map<nat, Job>, folders: set<string>, job: Job, env: Env)
    ensures (log + JobEntries(jobs, folders, job, env))[|log| + 1]
            == MarkEntry(Marked(jobs, job, env), job.id)
  {
  }

  lemma PrefixOfAppend<T>(a: seq<T>, b: seq<T>, n: nat)
    requires n <= |a|
    ensures (a + b)[..n] == a[..n]
  {
  }

  lemma IndexOfAppend<T>(a: seq<T>, b: seq<T>, i: nat)
    requires i < |a| + |b|
    ensures (a + b)[i] == if i < |a| then a[i] else b[i - |a|]
  {
  }

  /** After a run in which no update fails, every job it went through is
      cleaned up, so no later run selects it, and the same query selects
      nothing at all. */
  lemma SecondRunSelectsNone(jobs: map<nat, Job>, nextId: nat, cutoff: int, folders: set<string>, env: Env)
    requires Keyed(jobs, nextId)
    requires forall id :: id in SelectedIds(jobs, nextId, IsStale(cutoff)) ==> id !in env.updateFails
    ensures var rows := StaleRows(jobs, nextId, cutoff);
            var after := SweepAll(Sweep(jobs, folders, []), rows, env);
            (forall k :: 0 <= k < |rows| ==> rows[k].id in after.jobs && after.jobs[rows[k].id].cleanedUp)
            && StaleRows(after.jobs, nextId, cutoff) == []
  {
    var ids := SelectedIds(jobs, nextId, IsStale(cutoff));
    var rows := StaleRows(jobs, nextId, cutoff);
    var s := Sweep(jobs, folders, []);
    var after := SweepAll(s, rows, env);
    SweepAllJobs(s, rows, env);
    forall k | 0 <= k < |rows|
      ensures rows[k].id in after.jobs && after.jobs[rows[k].id].cleanedUp
    {
      assert rows[k] == jobs[ids[k]] && rows[k].id == ids[k];
      assert Listed(rows, rows[k].id);
    }
    forall id | id in after.jobs
      ensures !Selects(IsStale(cutoff), after.jobs[id])
    {
      StaleRowsListed(jobs, nextId, cutoff, id);
    }
    NoneSelected(after.jobs, nextId, IsStale(cutoff));
  }

  lemma {:induction false} NoneSelected(jobs: map<nat, Job>, n: nat, f: Filter)
    requires forall id | id in jobs :: !Selects(f, jobs[id])
    ensures SelectedIds(jobs, n, f) == []
  {
    if n > 0 {
      NoneSelected(jobs, n - 1, f);
    }
  }

  /** The rows the sweep reads are exactly the selected ids. */
  lemma StaleRowsListed(jobs: map<nat, Job>, nextId: nat, cutoff: int, id: nat)
    requires Keyed(jobs, nextId)
    ensures Listed(StaleRows(jobs, nextId, cutoff), id) <==> id in SelectedIds(jobs, nextId, IsStale(cutoff))
  {
    var ids := SelectedIds(jobs, nextId, IsStale(cutoff));
    var rows := StaleRows(jobs, nextId, cutoff);
    assert forall k :: 0 <= k < |rows| ==> rows[k] == jobs[ids[k]] && rows[k].id == ids[k];
    if id in ids {
      var k :| 0 <= k < |ids| && ids[k] == id;
      assert rows[k].id == id;
    }
  }
}
