/** The `run` command of the flat schema
    (src/django_docsnaps/management/commands/_run.py): select the enabled
    jobs, fetch the latest snapshot text of every enabled job in one query,
    and create one task per active job with that job's snapshot text. */
module FlatRun {
  import opened Common
  import opened Snapshots

  /** A DocumentsLanguages row: the job. */
  datatype Job = Job(id: nat, url: string, isEnabled: bool)

  /** A task handed to the event loop: the job and the snapshot text it is
      compared against (None when the job has no snapshot or its text is NULL). */
  datatype Task = Task(job: Job, snapshotText: Option<string>)

  /** `DocumentsLanguages.objects.filter(is_enabled=True)`, in table order. */
  function ActiveJobs(jobs: seq<Job>): (r: seq<Job>)
    ensures forall j :: j in r <==> j in jobs && j.isEnabled
    ensures |r| <= |jobs|
    ensures (|r| == |jobs|) <==> (forall i :: 0 <= i < |jobs| ==> jobs[i].isEnabled)
    ensures |jobs| == 1 ==> r == (if jobs[0].isEnabled then jobs else [])
  {
    if jobs == [] then []
    else
      var rest := ActiveJobs(jobs[1..]);
      assert forall i :: 1 <= i < |jobs| ==> jobs[i] == jobs[1..][i - 1];
      if jobs[0].isEnabled then [jobs[0]] + rest else rest
  }

  /** The filter works row by row, so the enabled rows keep their table
      order and each appears once for every time it is in the table. */
  lemma {:induction false} ActiveJobsAppend(a: seq<Job>, b: seq<Job>)
    ensures ActiveJobs(a + b) == ActiveJobs(a) + ActiveJobs(b)
  {
    if a == [] {
      assert a + b == b;
    } else {
      assert (a + b)[1..] == a[1..] + b;
      ActiveJobsAppend(a[1..], b);
      assert (a + b)[0] == a[0];
    }
  }

  /** Turning every job off leaves no active job; an all-enabled table is
      its own active set. */
  lemma ActiveJobsEmptyIffNoneEnabled(jobs: seq<Job>)
    ensures ActiveJobs(jobs) == [] <==> forall i :: 0 <= i < |jobs| ==> !jobs[i].isEnabled
  {
    if ActiveJobs(jobs) == [] {
      forall i | 0 <= i < |jobs| ensures !jobs[i].isEnabled {
        assert jobs[i] in jobs;
      }
    } else {
      var j := ActiveJobs(jobs)[0];
      assert j in ActiveJobs(jobs);
    }
  }

  predicate IsEnabledJob(id: nat, jobs: seq<Job>)
  {
    exists j :: j in jobs && j.id == id && j.isEnabled
  }

  /** The rows of the `_get_snapshots` query: snapshots with no later sibling,
      inner-joined with an enabled DocumentsLanguages row. */
  function LatestSnapshotRows(snapshots: seq<SnapshotRow>, jobs: seq<Job>): (r: seq<SnapshotRow>)
  {
    LatestRowsAmong(snapshots, snapshots, jobs)
  }

  function LatestRowsAmong(rows: seq<SnapshotRow>, snapshots: seq<SnapshotRow>, jobs: seq<Job>): (r: seq<SnapshotRow>)
    ensures forall s :: s in r <==> s in rows && NoLaterSibling(s, snapshots) && IsEnabledJob(s.job, jobs)
  {
    if rows == [] then []
    else
      var rest := LatestRowsAmong(rows[1..], snapshots, jobs);
      assert forall s :: s in rows <==> s == rows[0] || s in rows[1..];
      if NoLaterSibling(rows[0], snapshots) && IsEnabledJob(rows[0].job, jobs) then [rows[0]] + rest else rest
  }

  /** `{snapshot[1]: snapshot[2] for snapshot in result_set}`: later rows
      overwrite earlier ones. */
  function SnapshotDict(rows: seq<SnapshotRow>): (d: map<nat, Option<string>>)
    ensures d.Keys == set s | s in rows :: s.job
    ensures forall k :: k in d ==> exists s :: s in rows && s.job == k && s.text == d[k]
  {
    if rows == [] then map[]
    else
      var init := rows[..|rows| - 1];
      var last := rows[|rows| - 1];
      assert rows == init + [last];
      SnapshotDict(init)[last.job := last.text]
  }

  /** `_get_snapshots()`: the latest snapshot text of every enabled job. */
  function GetSnapshots(snapshots: seq<SnapshotRow>, jobs: seq<Job>): (d: map<nat, Option<string>>)
    ensures forall id :: id in d ==> IsEnabledJob(id, jobs)
    ensures forall id :: id in d ==>
              exists s :: s in snapshots && s.job == id && NoLaterSibling(s, snapshots) && s.text == d[id]
  {
    SnapshotDict(LatestSnapshotRows(snapshots, jobs))
  }

  /** The dictionary has an entry exactly for the enabled jobs that have at
      least one snapshot. */
  lemma GetSnapshotsKeys(snapshots: seq<SnapshotRow>, jobs: seq<Job>, id: nat)
    ensures id in GetSnapshots(snapshots, jobs) <==> IsEnabledJob(id, jobs) && HasSnapshot(id, snapshots)
  {
    if IsEnabledJob(id, jobs) && HasSnapshot(id, snapshots) {
      var s := LatestOf(id, snapshots);
      assert s in LatestSnapshotRows(snapshots, jobs);
    }
  }

  /** Each entry is the text of a snapshot of that job with the greatest
      datetime; with one snapshot per job and instant, it is the text of the
      latest snapshot. */
  lemma GetSnapshotsLatest(snapshots: seq<SnapshotRow>, jobs: seq<Job>, i: nat)
    requires UniqueInstants(snapshots)
    requires i < |snapshots| && NoLaterSibling(snapshots[i], snapshots)
    requires IsEnabledJob(snapshots[i].job, jobs)
    ensures snapshots[i].job in GetSnapshots(snapshots, jobs)
    ensures GetSnapshots(snapshots, jobs)[snapshots[i].job] == snapshots[i].text
  {
    var d := GetSnapshots(snapshots, jobs);
    var k := snapshots[i].job;
    assert snapshots[i] in LatestSnapshotRows(snapshots, jobs);
    var s :| s in LatestSnapshotRows(snapshots, jobs) && s.job == k && s.text == d[k];
    var j :| 0 <= j < |snapshots| && snapshots[j] == s;
    LatestUnique(snapshots, i, j);
  }

  /** No snapshots at all: an empty dictionary. */
  lemma GetSnapshotsNone(jobs: seq<Job>)
    ensures GetSnapshots([], jobs) == map[]
  {
  }

  /** `snapshots.get(job.documents_languages_id, None)`: a missing entry
      and a NULL text both read as None. */
  function SnapshotFor(snapshots: map<nat, Option<string>>, id: nat): (r: Option<string>)
    ensures id !in snapshots ==> r == None
    ensures id in snapshots ==> r == snapshots[id]
  {
    if id in snapshots then snapshots[id] else None
  }

  /** `_execute_jobs`: fetches the snapshot dictionary once, then creates
      one task per active job, in order, each with its job's snapshot text. */
  method ExecuteJobs(activeJobs: seq<Job>, snapshotTable: seq<SnapshotRow>, jobTable: seq<Job>)
    returns (tasks: seq<Task>)
    ensures |tasks| == |activeJobs|
    ensures forall i :: 0 <= i < |tasks| ==>
              tasks[i].job == activeJobs[i]
              && tasks[i].snapshotText == SnapshotFor(GetSnapshots(snapshotTable, jobTable), activeJobs[i].id)
  {
    var snapshots := GetSnapshots(snapshotTable, jobTable);
    tasks := [];
    for i := 0 to |activeJobs|
      invariant |tasks| == i
      invariant forall k :: 0 <= k < i ==>
                  tasks[k].job == activeJobs[k] && tasks[k].snapshotText == SnapshotFor(snapshots, activeJobs[k].id)
    {
      var job := activeJobs[i];
      var snapshot := SnapshotFor(snapshots, job.id);
      tasks := tasks + [Task(job, snapshot)];
    }
  }

  /** The top-level names `_run.py` binds by its imports: `import
      django_docsnaps.models` binds `django_docsnaps`, not `docsnaps`. */
  const ImportedNames: set<string> := {"asyncio", "aiohttp", "django", "django_docsnaps", "command_utils"}

  /** The error Python raises for an unbound name. */
  function NameError(name: string): string
  {
    "NameError: name '" + name + "' is not defined"
  }

  /** `_get_snapshots` as written: the table names of the query are read
      through `docsnaps.models`, so the query runs only when `docsnaps` is
      among the names bound; otherwise a NameError is raised before it. */
  function GetSnapshotsAsWritten(bound: set<string>, snapshots: seq<SnapshotRow>, jobs: seq<Job>)
    : (r: Result<map<nat, Option<string>>, string>)
    ensures r.Err? <==> "docsnaps" !in bound
    ensures r.Err? ==> r.error == NameError("docsnaps")
    ensures r.Ok? ==> r.value == GetSnapshots(snapshots, jobs)
  {
    if "docsnaps" in bound then Ok(GetSnapshots(snapshots, jobs)) else Err(NameError("docsnaps"))
  }

  /** With the imports of `_run.py`, `_get_snapshots` never reaches its
      query, whatever the tables hold. */
  lemma GetSnapshotsAsWrittenRaises(snapshots: seq<SnapshotRow>, jobs: seq<Job>)
    ensures GetSnapshotsAsWritten(ImportedNames, snapshots, jobs) == Err(NameError("docsnaps"))
  {
    assert "docsnaps" !in ImportedNames by {
      assert |"docsnaps"| == 8;
    }
  }

  /** `handle` as written: the report when no job is enabled, and otherwise
      the error `_execute_jobs` passes on from its first statement, the
      awaited `_get_snapshots`. */
  function HandleAsWritten(jobTable: seq<Job>, snapshotTable: seq<SnapshotRow>): (r: Result<string, string>)
    ensures ActiveJobs(jobTable) == [] ==> r == Ok(NoActiveJobs)
    ensures ActiveJobs(jobTable) != [] ==> r == Err(NameError("docsnaps"))
  {
    if ActiveJobs(jobTable) == [] then Ok(NoActiveJobs)
    else
      GetSnapshotsAsWrittenRaises(snapshotTable, jobTable);
      match GetSnapshotsAsWritten(ImportedNames, snapshotTable, jobTable)
      case Err(e) => Err(e)
      case Ok(_) => Ok(JobsCompleted)
  }

  /** As written, `handle` with any enabled job raises the NameError instead
      of reporting the completed run that Handle reports. */
  lemma HandleAsWrittenRaises(jobTable: seq<Job>, snapshotTable: seq<SnapshotRow>, i: nat)
    requires i < |jobTable| && jobTable[i].isEnabled
    ensures HandleAsWritten(jobTable, snapshotTable) == Err(NameError("docsnaps"))
  {
    ActiveJobsEmptyIffNoneEnabled(jobTable);
    GetSnapshotsAsWrittenRaises(snapshotTable, jobTable);
  }

  const NoActiveJobs := "Run complete: No active jobs found."
  const JobsCompleted := "Run complete: Active jobs completed successfully."

  /** `handle`: with no enabled job, nothing runs and the report says so;
      otherwise one task per enabled job is created. */
  method Handle(jobTable: seq<Job>, snapshotTable: seq<SnapshotRow>) returns (tasks: seq<Task>, report: string)
    ensures |tasks| == |ActiveJobs(jobTable)|
    ensures forall i :: 0 <= i < |tasks| ==> tasks[i].job == ActiveJobs(jobTable)[i]
    ensures report == NoActiveJobs <==> forall i :: 0 <= i < |jobTable| ==> !jobTable[i].isEnabled
    ensures report == NoActiveJobs || report == JobsCompleted
  {
    var activeJobs := ActiveJobs(jobTable);
    ActiveJobsEmptyIffNoneEnabled(jobTable);
    if activeJobs != [] {
      tasks := ExecuteJobs(activeJobs, snapshotTable, jobTable);
      report := JobsCompleted;
    } else {
      tasks := [];
      report := NoActiveJobs;
    }
  }

  /** A task's snapshot text is its job's latest snapshot text when the job
      has snapshots, and None when it has none. */
  lemma TaskSnapshotIsLatest(jobTable: seq<Job>, snapshotTable: seq<SnapshotRow>, job: Job, i: nat)
    requires UniqueInstants(snapshotTable)
    requires job in jobTable && job.isEnabled
    requires i < |snapshotTable| && snapshotTable[i].job == job.id && NoLaterSibling(snapshotTable[i], snapshotTable)
    ensures SnapshotFor(GetSnapshots(snapshotTable, jobTable), job.id) == snapshotTable[i].text
  {
    GetSnapshotsLatest(snapshotTable, jobTable, i);
  }

  lemma TaskSnapshotWithoutHistory(jobTable: seq<Job>, snapshotTable: seq<SnapshotRow>, id: nat)
    requires !HasSnapshot(id, snapshotTable)
    ensures SnapshotFor(GetSnapshots(snapshotTable, jobTable), id) == None
  {
    GetSnapshotsKeys(snapshotTable, jobTable, id);
  }
}
