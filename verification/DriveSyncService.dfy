/** The drive worker's job: verify the sources, copy what no checkpoint covers, record each copy, report bytes. Copies
    fail with any effect on their own path, and so does every durable write. */
module DriveSyncService {
  import opened Wrappers
  import opened DriveSyncPlan

  /** A failed copy leaves its path alone or leaves anything there. */
  datatype CopyEnd = Copied | Broken(left: Option<nat>)

  /** The byte counts rclone reports while it copies, how it ends, and whether the checkpoint is stored. */
  datatype CopyRun = CopyRun(ticks: seq<int>, end: CopyEnd, marked: bool)

  /** One `process_job`: the local files as they are now, and how everything remote and durable ends. */
  datatype JobRun = JobRun(
    images: seq<Artifact>, metadata: Option<Artifact>, completed: bool, copies: seq<CopyRun>, metadataCopy: CopyRun,
    metadataMarks: seq<bool>, syncedSaved: bool)

  datatype Progress = Progress(bytes: int, total: int, percentage: real)
  {
    /** The checks of the progress record; a record that fails them cannot be made. */
    predicate Valid() {
      0 <= bytes && 0 <= total && (bytes <= total || total == 0) && 0.0 <= percentage <= 100.0
    }
  }

  function Clamp(x: int, bound: nat): nat {
    if x < 0 then 0 else if x > bound then bound else x
  }

  predicate SamePlan(r: Record, t: Record) {
    && t.destination == r.destination && t.metadata == r.metadata && t.metadataPath == r.metadataPath
    && |t.items| == |r.items|
    && forall i :: 0 <= i < |r.items| ==>
         t.items[i].(imageSynced := r.items[i].imageSynced, metadataSynced := r.items[i].metadataSynced) == r.items[i]
  }

  /** No checkpoint is ever taken back by a job. */
  predicate Grows(r: Record, t: Record) {
    SamePlan(r, t) && forall i :: 0 <= i < |r.items| ==>
      (r.items[i].imageSynced ==> t.items[i].imageSynced) && (r.items[i].metadataSynced ==> t.items[i].metadataSynced)
  }

  predicate Owns(r: Record, destination: Destination, path: string) {
    destination == r.destination &&
      (path == r.metadataPath || exists i :: 0 <= i < |r.items| && r.items[i].path == path)
  }

  predicate Elsewhere(r: Record, before: Remote, after: Remote) {
    (forall k :: k in before && !Owns(r, k.0, k.1) ==> k in after && after[k] == before[k]) &&
    (forall k :: k in after && !Owns(r, k.0, k.1) ==> k in before)
  }

  function TotalBytes(r: Record): nat {
    ImageBytes(r.items) + if r.metadata.Some? then r.metadata.value.size else 0
  }

  // ---------- the local files ----------

  /** The image with this ID; of two the later one. */
  function FindImage(images: seq<Artifact>, id: nat): (r: Option<Artifact>)
    ensures r.Some? ==> r.value in images && r.value.id == id
    ensures r.None? ==> forall image :: image in images ==> image.id != id
  {
    if images == [] then None
    else
      var init, last := images[..|images| - 1], images[|images| - 1];
      assert images == init + [last];
      if last.id == id then Some(last) else FindImage(init, id)
  }

  /** Every planned image is found by its ID, with its hash and size, and there are as many as planned. */
  predicate Planned(images: seq<Artifact>, r: Record) {
    |images| == |r.items| &&
    forall k :: 0 <= k < |r.items| ==> FindImage(images, r.items[k].image.id) == Some(r.items[k].image)
  }

  /** IDs being unique, that accepts exactly the planned images in any order. */
  lemma PlannedIffReordered(images: seq<Artifact>, r: Record)
    requires DistinctImages(r.items)
    ensures Planned(images, r) <==> multiset(images) == multiset(Images(r))
  {
    var planned := Images(r);
    assert |planned| == |r.items| && forall k :: 0 <= k < |r.items| ==> planned[k] == r.items[k].image;
    if Planned(images, r) {
      forall x | x in planned ensures x in images {
        var k :| 0 <= k < |planned| && planned[k] == x;
        assert FindImage(images, r.items[k].image.id) == Some(x);
      }
      SameElements(planned, images);
    } else if multiset(images) == multiset(planned) {
      assert |images| == |multiset(images)| == |planned|;
      forall k | 0 <= k < |r.items| ensures FindImage(images, planned[k].id) == Some(planned[k]) {
        assert planned[k] in multiset(planned);
        var found := FindImage(images, planned[k].id);
        assert found.Some? && found.value in multiset(planned);
        var i :| 0 <= i < |planned| && planned[i] == found.value;
      }
    }
  }

  lemma {:induction false} SameElements(a: seq<Artifact>, b: seq<Artifact>)
    requires |a| == |b| && (forall i, j :: 0 <= i < j < |a| ==> a[i] != a[j]) && (forall x :: x in a ==> x in b)
    ensures multiset(a) == multiset(b)
  {
    if a != [] {
      var init, last := a[..|a| - 1], a[|a| - 1];
      assert last in a && last in b;
      var j :| 0 <= j < |b| && b[j] == last;
      var rest := b[..j] + b[j + 1..];
      forall x | x in init ensures x in rest {
        assert x in a && x in b;
        var i :| 0 <= i < |b| && b[i] == x;
        assert x in (if i < j then b[..j] else b[j + 1..]);
      }
      SameElements(init, rest);
      assert a == init + [last] && b == b[..j] + [last] + b[j + 1..];
    }
  }

  // ---------- when a job succeeds ----------

  /** The copy of image `k` ends well and is checkpointed, if it is needed at all. */
  predicate ImageCopies(r: Record, run: JobRun, k: nat)
    requires k < |r.items| == |run.copies|
  {
    r.items[k].imageSynced || (run.copies[k].end == Copied && run.copies[k].marked)
  }

  predicate ImagesCopy(r: Record, run: JobRun)
    requires |r.items| == |run.copies|
  {
    forall k :: 0 <= k < |r.items| ==> ImageCopies(r, run, k)
  }

  /** The metadata file ends well and every checkpoint of it is stored, if that is needed at all. */
  predicate MetadataCopies(r: Record, run: JobRun)
    requires |r.items| == |run.metadataMarks|
  {
    MetadataDone(r) || (run.metadataCopy.end == Copied && AllMarked(run.metadataMarks))
  }

  predicate AllMarked(marks: seq<bool>) {
    forall k :: 0 <= k < |marks| ==> marks[k]
  }

  predicate Unchanged(r: Record, run: JobRun) {
    run.completed && run.metadata.Some? && run.metadata == r.metadata && r.items != [] && Planned(run.images, r)
  }

  /** The sources are unchanged, whatever is not on the remote yet is copied and recorded, and so is the result. */
  predicate Succeeds(r: Record, run: JobRun)
    requires |r.items| == |run.copies| == |run.metadataMarks|
  {
    Unchanged(r, run) && ImagesCopy(r, run) && MetadataCopies(r, run) && run.syncedSaved
  }

  class DriveSyncService {
    var record: Record
    var remote: Remote
    var reports: seq<Progress>

    /** The last rebuild of the plan was trapped. */
    ghost var trapped: bool

    ghost predicate Valid()
      reads this
    {
      && TruthfulPlan(record, remote) && (record.status == Synced ==> AllSynced(record))
      && (trapped <==> !MetadataTruthful(record, remote))
      && forall i :: 0 <= i < |reports| ==> reports[i].Valid()
    }

    constructor (destination: Destination, source: Source, images: seq<Artifact>, metadata: Option<Artifact>,
                 remote: Remote)
      ensures Valid() && this.remote == remote &&
        record == BuildRecord(None, destination, source, images, metadata, false)
      ensures !trapped
    {
      RebuildingStaysTruthful(None, destination, source, images, metadata, false, remote);
      RebuildingTrustsMetadataIff(None, destination, source, images, metadata, false, remote);
      record := BuildRecord(None, destination, source, images, metadata, false);
      this.remote := remote;
      reports, trapped := [], false;
    }

    /** After any sequence of jobs, retries, resyncs, destination and source changes, SYNCED means that every image is
        present, and the metadata too exactly unless the last rebuild was trapped. */
    lemma SyncedMeansPresent()
      requires Valid() && record.status == Synced
      ensures ImagesPresent(record, remote)
      ensures Present(record, remote) <==> !trapped
    {
      assert record.items[0].metadataSynced;
    }

    /** `retry_generation` with what is local now. A resync needs a SYNCED record with a current manifest. */
    method Retry(destination: Destination, source: Source, images: seq<Artifact>, metadata: Option<Artifact>,
                 resync: bool, manifestReady: bool, saved: bool)
      returns (refused: bool)
      requires Valid()
      modifies this`record, this`trapped
      ensures Valid()
      ensures refused <==>
        old(record).status == Pending || (old(record).status == Synced && !(resync && manifestReady)) ||
        (old(record).status == Failed && resync) || images == [] || !saved
      ensures refused ==> record == old(record) && trapped == old(trapped)
      ensures !refused ==> trapped == Trap(Some(old(record)), destination, source, images, metadata, resync, remote)
      ensures !refused ==>
        record == BuildRecord(Some(old(record)), destination, source, images, metadata, resync)
                  .(status := if metadata.None? then Failed else Pending)
    {
      if record.status == Synced && (!resync || !manifestReady) {
        return true;
      }
      if record.status == Pending || images == [] {
        return true;
      }
      if !saved || (resync && (record.status != Synced || !manifestReady)) {
        return true;
      }
      RebuildingStaysTruthful(Some(record), destination, source, images, metadata, resync, remote);
      RebuildingTrustsMetadataIff(Some(record), destination, source, images, metadata, resync, remote);
      trapped := Trap(Some(record), destination, source, images, metadata, resync, remote);
      record := BuildRecord(Some(record), destination, source, images, metadata, resync);
      if metadata.None? {
        record := record.(status := Failed);
      }
      refused := false;
    }

    /** `_update_progress`; the percentage is not clamped, so the caller must stay within the total. */
    method UpdateProgress(bytes: int, total: nat)
      requires Valid() && 0 <= bytes <= total
      modifies this`reports
      ensures Valid() && |reports| > 0 && reports == old(reports) + [reports[|reports| - 1]]
      ensures reports[|reports| - 1].bytes == bytes && reports[|reports| - 1].total == total
      ensures total > 0 ==> reports[|reports| - 1].percentage * total as real == bytes as real * 100.0
    {
      var percentage := if total == 0 then 100.0 else bytes as real * 100.0 / total as real;
      if total > 0 {
        PercentageInRange(bytes, total);
      }
      reports := reports + [Progress(bytes, total, percentage)];
    }

    /** One copy: it changes nothing but its own path, and reports only within the total. */
    method CopyWithProgress(path: string, artifact: Artifact, run: CopyRun, before: nat, total: nat)
      returns (copied: bool)
      requires Valid() && before + artifact.size <= total && record.status != Synced && !Trusted(path)
      modifies this`remote, this`reports
      ensures Valid() && copied == (run.end == Copied) && old(reports) <= reports
      ensures copied ==> Holds(remote, record.destination, path, artifact.sha256)
      ensures copied ==> reports != [] && reports[|reports| - 1].bytes == before + artifact.size
      ensures forall k :: k != (record.destination, path) ==>
        (k in remote <==> k in old(remote)) && (k in remote ==> remote[k] == old(remote)[k])
    {
      for i := 0 to |run.ticks|
        invariant Valid() && remote == old(remote) && old(reports) <= reports
      {
        UpdateProgress(Clamp(before + Clamp(run.ticks[i], artifact.size), total), total);
      }
      match run.end {
        case Broken(None) => return false;
        case Broken(Some(content)) =>
          remote := remote[(record.destination, path) := content];
          return false;
        case Copied =>
          remote := remote[(record.destination, path) := artifact.sha256];
          UpdateProgress(before + artifact.size, total);
          copied := true;
      }
    }

    /** The checkpoints say that this path need not be copied again. */
    ghost predicate Trusted(path: string)
      reads this
    {
      || (exists i :: 0 <= i < |record.items| && record.items[i].imageSynced && record.items[i].path == path)
      || (path == record.metadataPath && MetadataDone(record))
    }

    /** The guards before any copy: the local files are the planned ones, whatever their order. */
    method SourcesUnchanged(run: JobRun) returns (ok: bool)
      ensures ok <==> Unchanged(record, run)
    {
      if !run.completed || run.metadata.None? || record.metadata.None? || record.items == [] ||
        |run.images| != |record.items| {
        return false;
      }
      var imageById: map<nat, Artifact> := map[];
      for i := 0 to |run.images|
        invariant forall id :: (if id in imageById then Some(imageById[id]) else None) == FindImage(run.images[..i], id)
      {
        assert run.images[..i + 1][..i] == run.images[..i];
        imageById := imageById[run.images[i].id := run.images[i]];
      }
      assert run.images[..|run.images|] == run.images;
      for i := 0 to |record.items|
        invariant forall k :: 0 <= k < i ==>
          FindImage(run.images, record.items[k].image.id) == Some(record.items[k].image)
      {
        var planned := record.items[i].image;
        if planned.id !in imageById || imageById[planned.id] != planned {
          return false;
        }
      }
      ok := run.metadata == record.metadata;
    }

    /** `mark_artifact_synced` for image `k`, after its copy. */
    method CheckpointImage(k: nat)
      requires Valid() && k < |record.items| && record.status == Pending && !record.items[k].imageSynced
      requires Holds(remote, record.destination, record.items[k].path, record.items[k].image.sha256)
      modifies this`record
      ensures Valid() &&
        record == old(record).(items := old(record).items[k := old(record).items[k].(imageSynced := true)])
      ensures SyncedBytes(record.items) == SyncedBytes(old(record).items) + record.items[k].image.size
      ensures ImageBytes(record.items) == ImageBytes(old(record).items)
    {
      CheckpointAddsItsSize(record.items, k);
      ImagesGrowRefl(record);
      ImagesGrowStep(record, record, k);
      SameMetadata(record, ImageDone(record, k));
      hide SyncedBytes, ImageBytes, MetadataDone;
      record := record.(items := record.items[k := record.items[k].(imageSynced := true)]);
    }

    method CheckpointMetadata(k: nat)
      requires Valid() && k < |record.items| && record.status == Pending && record.metadata.Some?
      requires Holds(remote, record.destination, record.metadataPath, record.metadata.value.sha256)
      modifies this`record
      ensures Valid() &&
        record == old(record).(items := old(record).items[k := old(record).items[k].(metadataSynced := true)])
      ensures SyncedBytes(record.items) == SyncedBytes(old(record).items)
      ensures ImageBytes(record.items) == ImageBytes(old(record).items)
    {
      MetadataFlagsWeighNothing(record.items, k, true);
      record := record.(items := record.items[k := record.items[k].(metadataSynced := true)]);
    }

    /** One missing image: copied, then checkpointed. */
    method CopyImage(k: nat, run: CopyRun, completed: nat, total: nat) returns (ok: bool)
      requires Valid() && k < |record.items| && record.status == Pending && !record.items[k].imageSynced
      requires completed + record.items[k].image.size <= total
      modifies this`record, this`remote, this`reports
      ensures Valid() && old(reports) <= reports && Elsewhere(old(record), old(remote), remote)
      ensures record == if ok then ImageDone(old(record), k) else old(record)
      ensures ok <==> run.end == Copied && run.marked
      ensures ok ==> SyncedBytes(record.items) == SyncedBytes(old(record).items) + record.items[k].image.size
      ensures ImageBytes(record.items) == ImageBytes(old(record).items)
    {
      assert !Trusted(record.items[k].path);
      assert Owns(record, record.destination, record.items[k].path);
      ok := CopyWithProgress(record.items[k].path, record.items[k].image, run, completed, total);
      if ok && run.marked {
        CheckpointImage(k);
      } else {
        ok := false;
      }
    }

    /** The image loop: `completed` is always what the checkpoints say, plus the metadata when it is done. */
    method CopyImages(run: JobRun, start: nat, extra: nat, total: nat) returns (done: bool, completed: nat)
      requires Valid() && record.status == Pending && |run.copies| == |record.items|
      requires start == SyncedBytes(record.items) + extra && total >= ImageBytes(record.items) + extra
      modifies this`record, this`remote, this`reports
      ensures Valid() && ImagesGrow(old(record), record) && old(reports) <= reports
      ensures Elsewhere(old(record), old(remote), remote)
      ensures ImageBytes(record.items) == ImageBytes(old(record).items)
      ensures done <==> ImagesCopy(old(record), run)
      ensures done ==> ImagesDone(record) && completed == ImageBytes(record.items) + extra
      ensures forall k :: 0 <= k < |record.items| ==>
        (record.items[k].imageSynced <==>
         old(record).items[k].imageSynced || forall j :: 0 <= j <= k ==> ImageCopies(old(record), run, j))
    {
      hide Valid, Elsewhere, ImagesGrow, ImageBytes, SyncedBytes;
      completed := start;
      ImagesGrowRefl(record);
      ElsewhereRefl(record, remote);
      for k := 0 to |record.items|
        invariant Valid() && ImagesGrow(old(record), record) && record.status == Pending && old(reports) <= reports
        invariant |record.items| == |old(record).items|
        invariant Elsewhere(old(record), old(remote), remote)
        invariant ImageBytes(record.items) == ImageBytes(old(record).items)
        invariant completed == SyncedBytes(record.items) + extra
        invariant forall i :: 0 <= i < k ==> record.items[i].imageSynced && ImageCopies(old(record), run, i)
        invariant forall i :: k <= i < |record.items| ==> record.items[i] == old(record).items[i]
      {
        if !record.items[k].imageSynced {
          CheckpointAddsItsSize(record.items, k);
          ghost var r, m := record, remote;
          var ok := CopyImage(k, run.copies[k], completed, total);
          ElsewhereTrans(old(record), r, old(remote), m, remote);
          if !ok {
            assert !ImageCopies(old(record), run, k);
            return false, completed;
          }
          ImagesGrowStep(old(record), r, k);
          completed := completed + record.items[k].image.size;
        }
      }
      SyncedIsPartOfAll(record.items);
      done := true;
    }

    /** The metadata copy, then one checkpoint per image; the copy is repeated until every one of them is stored. */
    method CopyMetadata(run: JobRun, completed: nat, total: nat) returns (done: bool)
      requires Valid() && record.status == Pending && record.metadata.Some? && run.metadata == record.metadata
      requires record.items != [] && !MetadataDone(record) && |run.metadataMarks| == |record.items|
      requires completed + record.metadata.value.size <= total
      modifies this`record, this`remote, this`reports
      ensures Valid() && MetadataGrows(old(record), record) && old(reports) <= reports
      ensures Elsewhere(old(record), old(remote), remote)
      ensures done <==> run.metadataCopy.end == Copied && AllMarked(run.metadataMarks)
      ensures done ==> MetadataDone(record)
    {
      UpdateProgress(completed, total);
      assert Owns(record, record.destination, record.metadataPath);
      done := CopyWithProgress(record.metadataPath, record.metadata.value, run.metadataCopy, completed, total);
      if !done {
        return;
      }
      ghost var r := record;
      done := CheckpointAll(run.metadataMarks);
      assert forall d, p :: Owns(r, d, p) == Owns(record, d, p);
    }

    /** One metadata checkpoint after another, until one cannot be stored. */
    method CheckpointAll(marks: seq<bool>) returns (done: bool)
      requires Valid() && record.status == Pending && record.metadata.Some? && record.items != []
      requires Holds(remote, record.destination, record.metadataPath, record.metadata.value.sha256)
      requires |marks| == |record.items|
      modifies this`record
      ensures Valid() && MetadataGrows(old(record), record) && (done ==> MetadataDone(record))
      ensures done <==> AllMarked(marks)
    {
      for k := 0 to |record.items|
        invariant Valid() && MetadataGrows(old(record), record)
        invariant forall i :: 0 <= i < k ==> record.items[i].metadataSynced && marks[i]
      {
        if !marks[k] {
          return false;
        }
        ghost var r := record;
        hide Valid;
        CheckpointMetadata(k);
        MetadataGrowsStep(old(record), r, k);
      }
      done := true;
    }

    /** Everything that is missing, in order, and the byte count at the end. */
    method CopyAll(run: JobRun, total: nat) returns (done: bool)
      requires Valid() && record.status == Pending && record.items != [] &&
        |run.copies| == |run.metadataMarks| == |record.items|
      requires record.metadata.Some? && run.metadata == record.metadata && total == TotalBytes(record)
      modifies this`record, this`remote, this`reports
      ensures Valid() && Grows(old(record), record) && record.status == Pending && old(reports) <= reports
      ensures Elsewhere(old(record), old(remote), remote)
      ensures done <==> ImagesCopy(old(record), run) && MetadataCopies(old(record), run)
      ensures done ==>
        AllSynced(record) && |reports| > 0 && reports[|reports| - 1].bytes == reports[|reports| - 1].total == total
    {
      hide Elsewhere, ImageBytes, SyncedBytes, Valid, ImagesGrow, MetadataGrows, Grows, AllSynced;
      hide ImagesCopy, ImageCopies, AllMarked, MetadataDone, ImagesDone;
      var metadataSynced := MetadataDone(record);
      var extra := if metadataSynced then record.metadata.value.size else 0;
      SyncedIsPartOfAll(record.items);
      UpdateProgress(SyncedBytes(record.items) + extra, total);
      var imagesDone, completed := CopyImages(run, SyncedBytes(record.items) + extra, extra, total);
      ghost var r, m := record, remote;
      MetadataGrowsRefl(r);
      GrowthAddsUp(old(record), r, r);
      if !imagesDone {
        return false;
      }
      if !metadataSynced {
        SameMetadata(old(record), r);
        done := CopyMetadata(run, completed, total);
        ElsewhereTrans(old(record), r, old(remote), m, remote);
        GrowthAddsUp(old(record), r, record);
        if !done {
          return;
        }
      }
      UpdateProgress(total, total);
      done := true;
    }

    /** `process_job`. SYNCED is reached exactly if the sources are unchanged, every copy that is still needed ends well
        and everything is recorded; then every file of the plan is on the remote, whatever was copied by this job
        and whatever was skipped because an earlier one had done it; a failure keeps what was achieved, and no path of
        another Generation is touched. The last report then equals the total. */
    method ProcessJob(run: JobRun)
      requires Valid() && record.status == Pending && |run.copies| == |run.metadataMarks| == |record.items|
      modifies this`record, this`remote, this`reports
      ensures Valid() && Grows(old(record), record) && old(reports) <= reports &&
        Elsewhere(old(record), old(remote), remote)
      ensures record.status == if Succeeds(old(record), run) then Synced else Failed
      ensures record.status == Synced ==> ImagesPresent(record, remote)
      ensures record.status == Synced ==> (Present(record, remote) <==> !trapped)
      ensures record.status == Synced ==>
        |reports| > 0 && reports[|reports| - 1].bytes == reports[|reports| - 1].total == TotalBytes(old(record))
    {
      hide Elsewhere, ImageBytes, Valid, Present, AllSynced;
      var intact := SourcesUnchanged(run);
      if !intact {
        ElsewhereRefl(record, remote);
        SetStatus(Failed);
        return;
      }
      var done := CopyAll(run, TotalBytes(record));
      SetStatus(if done && run.syncedSaved then Synced else Failed);
    }

    /** `mark_synced` or `mark_failed`; the repository refuses the first without every checkpoint. */
    method SetStatus(status: Status)
      requires Valid() && (status == Synced ==> AllSynced(record) && record.metadata.Some?)
      modifies this`record
      ensures Valid() && record == old(record).(status := status)
      ensures status == Synced ==> ImagesPresent(record, remote) && (Present(record, remote) <==> !trapped)
    {
      record := record.(status := status);
      if status == Synced {
        SyncedMeansPresent();
      }
    }
  }

  /** Only metadata checkpoints were added. */
  predicate MetadataGrows(r: Record, t: Record) {
    && t == r.(items := t.items) && |t.items| == |r.items|
    && forall i :: 0 <= i < |r.items| ==> t.items[i] == r.items[i] || t.items[i] == r.items[i].(metadataSynced := true)
  }

  lemma MetadataGrowsStep(r: Record, t: Record, k: nat)
    requires MetadataGrows(r, t) && k < |t.items|
    ensures MetadataGrows(r, t.(items := t.items[k := t.items[k].(metadataSynced := true)]))
  {
  }

  lemma MetadataGrowsRefl(r: Record)
    ensures MetadataGrows(r, r)
  {
  }

  lemma GrowthAddsUp(r: Record, t: Record, u: Record)
    requires ImagesGrow(r, t) && MetadataGrows(t, u)
    ensures Grows(r, u) && u.status == r.status && u.metadata == r.metadata && u.metadataPath == r.metadataPath
    ensures u.destination == r.destination && |u.items| == |t.items| == |r.items|
    ensures ImagesDone(t) && r.items != [] && (MetadataDone(r) || MetadataDone(u)) ==> AllSynced(u)
  {
  }

  predicate ImagesDone(r: Record) {
    forall i :: 0 <= i < |r.items| ==> r.items[i].imageSynced
  }

  function ImageDone(r: Record, k: nat): Record
    requires k < |r.items|
  {
    r.(items := r.items[k := r.items[k].(imageSynced := true)])
  }

  /** Only image checkpoints were added. */
  predicate ImagesGrow(r: Record, t: Record) {
    && t == r.(items := t.items) && |t.items| == |r.items|
    && forall i :: 0 <= i < |r.items| ==> t.items[i] == r.items[i] || t.items[i] == r.items[i].(imageSynced := true)
  }

  lemma ImagesGrowRefl(r: Record)
    ensures ImagesGrow(r, r)
  {
  }

  lemma SameMetadata(r: Record, t: Record)
    requires ImagesGrow(r, t)
    ensures MetadataDone(r) <==> MetadataDone(t)
  {
  }

  lemma ImagesGrowStep(r: Record, t: Record, k: nat)
    requires ImagesGrow(r, t) && k < |t.items|
    ensures ImagesGrow(r, ImageDone(t, k))
  {
  }

  lemma ElsewhereRefl(r: Record, m: Remote)
    ensures Elsewhere(r, m, m)
  {
  }

  lemma ElsewhereTrans(r: Record, t: Record, m0: Remote, m1: Remote, m2: Remote)
    requires ImagesGrow(r, t) && Elsewhere(r, m0, m1) && Elsewhere(t, m1, m2)
    ensures Elsewhere(r, m0, m2)
  {
    assert forall d, p :: Owns(r, d, p) == Owns(t, d, p);
  }

  lemma PercentageInRange(bytes: int, total: nat)
    requires 0 <= bytes <= total && total > 0
    ensures 0.0 <= bytes as real * 100.0 / total as real <= 100.0
  {
  }
}
