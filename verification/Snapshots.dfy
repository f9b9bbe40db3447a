/** Snapshot rows as both run commands read them, and the "latest by
    datetime" selection they express in SQL as a self-anti-join: a row is
    kept when no row of the same document instance has a later datetime
    (docsnaps/models.py:265, src/docsnaps/models.py:171-173). Datetimes
    are integers. */
module Snapshots {
  import opened Common

  datatype SnapshotRow = SnapshotRow(snapshotId: nat, job: nat, datetime: int, text: Option<string>)

  /** `LEFT JOIN snapshot AS s2 ON s2.job = s.job AND s2.datetime > s.datetime
      ... WHERE s2.snapshot_id IS NULL`. */
  predicate NoLaterSibling(s: SnapshotRow, snapshots: seq<SnapshotRow>)
  {
    forall t :: t in snapshots && t.job == s.job ==> t.datetime <= s.datetime
  }

  /** The unique constraint (documents_languages_id, datetime) of the flat
      schema: one snapshot per job and instant. */
  predicate UniqueInstants(snapshots: seq<SnapshotRow>)
  {
    forall i, j :: 0 <= i < |snapshots| && 0 <= j < |snapshots| && i != j && snapshots[i].job == snapshots[j].job
      ==> snapshots[i].datetime != snapshots[j].datetime
  }

  predicate HasSnapshot(job: nat, snapshots: seq<SnapshotRow>)
  {
    exists s :: s in snapshots && s.job == job
  }

  /** A job with at least one snapshot has one without a later sibling: the
      anti-join never drops every snapshot of a job. */
  lemma {:induction false} LatestExists(job: nat, snapshots: seq<SnapshotRow>)
    requires HasSnapshot(job, snapshots)
    ensures exists s :: s in snapshots && s.job == job && NoLaterSibling(s, snapshots)
  {
    var s := LatestOf(job, snapshots);
  }

  /** A witness for LatestExists: the first snapshot of `job` with the
      greatest datetime. */
  lemma {:induction false} LatestOf(job: nat, snapshots: seq<SnapshotRow>) returns (s: SnapshotRow)
    requires HasSnapshot(job, snapshots)
    ensures s in snapshots && s.job == job && NoLaterSibling(s, snapshots)
  {
    var last := snapshots[|snapshots| - 1];
    var init := snapshots[..|snapshots| - 1];
    assert snapshots == init + [last];
    if HasSnapshot(job, init) {
      var best := LatestOf(job, init);
      if last.job == job && last.datetime > best.datetime {
        s := last;
      } else {
        s := best;
      }
    } else {
      s := last;
    }
  }

  /** With one snapshot per job and instant, two latest snapshots of one job
      are the same row. */
  lemma LatestUnique(snapshots: seq<SnapshotRow>, i: nat, j: nat)
    requires UniqueInstants(snapshots)
    requires i < |snapshots| && j < |snapshots| && snapshots[i].job == snapshots[j].job
    requires NoLaterSibling(snapshots[i], snapshots) && NoLaterSibling(snapshots[j], snapshots)
    ensures i == j
  {
    assert snapshots[j] in snapshots && snapshots[i] in snapshots;
  }
}
