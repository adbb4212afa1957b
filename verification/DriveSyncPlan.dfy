/** The durable plan of one drive synchronization: which files go where, which are known to be there already, and
    what survives when the plan is rebuilt for a retry, a resync, another destination or changed sources. */
module DriveSyncPlan {
  import opened Wrappers
  import opened Text
  import opened RemotePaths

  datatype Destination = Destination(remote: string, base: string)

  /** A local file as recorded: identity, content hash and size. */
  datatype Artifact = Artifact(id: nat, sha256: nat, size: nat)

  /** What the remote paths of a Generation are built from. */
  datatype Source = Source(idPrefix: string, kind: Kind, created: Date, time: Time, completed: Date)
  {
    function RemotePaths(): Paths { BuildRemotePaths(idPrefix, kind, created, time, completed) }
  }

  datatype Item = Item(
    image: Artifact, path: string, metadata: Option<Artifact>, metadataPath: string,
    imageSynced: bool, metadataSynced: bool)

  datatype Status = Pending | Synced | Failed

  datatype Record = Record(
    destination: Destination, metadata: Option<Artifact>, metadataPath: string, items: seq<Item>, status: Status)

  /** What each remote path holds, at each destination. */
  type Remote = map<(Destination, string), nat>

  predicate Holds(remote: Remote, destination: Destination, path: string, sha256: nat) {
    (destination, path) in remote && remote[(destination, path)] == sha256
  }

  // ---------- the plan ----------

  function Lookup(items: seq<Item>, id: nat): Option<Item> {
    if items == [] then None
    else if items[|items| - 1].image.id == id then Some(items[|items| - 1])
    else Lookup(items[..|items| - 1], id)
  }

  predicate CanResumeImage(previous: Option<Item>, image: Artifact, path: string) {
    previous.Some? && previous.value.imageSynced && previous.value.path == path && previous.value.image == image
  }

  predicate CanResumeMetadata(previous: Option<Item>, metadata: Option<Artifact>, path: string) {
    metadata.Some? && previous.Some? && previous.value.metadataSynced && previous.value.metadata == metadata &&
    previous.value.metadataPath == path
  }

  function PlanItem(previous: seq<Item>, images: seq<Artifact>, k: nat, metadata: Option<Artifact>, paths: Paths): Item
    requires k < |images|
  {
    var path := BuildRemoteImagePath(paths.imagePath, k, |images|);
    var before := Lookup(previous, images[k].id);
    Item(images[k], path, metadata, paths.metadataPath,
         CanResumeImage(before, images[k], path), CanResumeMetadata(before, metadata, paths.metadataPath))
  }

  /** Checkpoints are carried over only within one destination. */
  function Resumable(existing: Option<Record>, destination: Destination, resync: bool): seq<Item> {
    if !resync && existing.Some? && existing.value.destination == destination then existing.value.items else []
  }

  /** `images` are in display order, which is 0 to n-1. */
  function BuildRecord(existing: Option<Record>, destination: Destination, source: Source, images: seq<Artifact>,
                       metadata: Option<Artifact>, resync: bool): (r: Record)
    ensures |r.items| == |images|
    ensures forall k :: 0 <= k < |images| ==>
      r.items[k] == PlanItem(Resumable(existing, destination, resync), images, k, metadata, source.RemotePaths())
  {
    var previous := Resumable(existing, destination, resync);
    var paths := source.RemotePaths();
    Record(destination, metadata, paths.metadataPath,
           seq(|images|, k requires 0 <= k < |images| => PlanItem(previous, images, k, metadata, paths)), Pending)
  }

  // ---------- what the flags mean ----------

  /** Every image checkpoint tells the truth about the remote, and no two files of the plan share a path. */
  ghost predicate TruthfulPlan(r: Record, remote: Remote) {
    && (forall i :: 0 <= i < |r.items| ==>
        r.items[i].metadata == r.metadata && r.items[i].metadataPath == r.metadataPath)
    && (forall i :: 0 <= i < |r.items| ==> r.items[i].path != r.metadataPath)
    && (forall i :: 0 <= i < |r.items| && r.items[i].metadataSynced ==> r.metadata.Some?)
    && (forall i, j :: 0 <= i < j < |r.items| ==> r.items[i].path != r.items[j].path)
    && (forall i :: 0 <= i < |r.items| && r.items[i].imageSynced ==>
          Holds(remote, r.destination, r.items[i].path, r.items[i].image.sha256))
  }

  predicate MetadataDone(r: Record) {
    r.items != [] && forall i :: 0 <= i < |r.items| ==> r.items[i].metadataSynced
  }

  /** The metadata checkpoints are believed only when every image has one: then the file must be there. */
  ghost predicate MetadataTruthful(r: Record, remote: Remote) {
    MetadataDone(r) ==> r.metadata.Some? && Holds(remote, r.destination, r.metadataPath, r.metadata.value.sha256)
  }

  ghost predicate ImagesPresent(r: Record, remote: Remote) {
    forall i :: 0 <= i < |r.items| ==> Holds(remote, r.destination, r.items[i].path, r.items[i].image.sha256)
  }

  /** The whole Generation is on the remote. */
  ghost predicate Present(r: Record, remote: Remote) {
    && r.items != [] && r.metadata.Some? && ImagesPresent(r, remote)
    && Holds(remote, r.destination, r.metadataPath, r.metadata.value.sha256)
  }

  predicate AllSynced(r: Record) {
    r.items != [] && forall i :: 0 <= i < |r.items| ==> r.items[i].imageSynced && r.items[i].metadataSynced
  }

  lemma {:induction false} LookupFinds(items: seq<Item>, id: nat)
    ensures Lookup(items, id).Some? ==> Lookup(items, id).value in items && Lookup(items, id).value.image.id == id
  {
    if items != [] {
      LookupFinds(items[..|items| - 1], id);
    }
  }

  lemma PathsApart(source: Source, i: nat, j: nat, n: nat)
    requires i < n && j < n
    ensures var p := source.RemotePaths();
      && BuildRemoteImagePath(p.imagePath, i, n) != p.metadataPath
      && (i != j ==> BuildRemoteImagePath(p.imagePath, i, n) != BuildRemoteImagePath(p.imagePath, j, n))
  {
    MetadataPathIsNoImagePath(source.idPrefix, source.kind, source.created, source.time, source.completed, i, n);
    ImagePathsAreDistinct(source.RemotePaths().imagePath, i, j, n);
    hide BuildRemotePaths, BuildRemoteImagePath;
  }

  /** Rebuilding the plan keeps every image checkpoint truthful: for a retry, a resync, a changed destination, changed,
      added, removed or reordered images, and changed metadata. */
  lemma RebuildingStaysTruthful(existing: Option<Record>, destination: Destination, source: Source,
                                images: seq<Artifact>, metadata: Option<Artifact>, resync: bool, remote: Remote)
    requires existing.Some? ==> TruthfulPlan(existing.value, remote)
    ensures TruthfulPlan(BuildRecord(existing, destination, source, images, metadata, resync), remote)
  {
    hide BuildRemotePaths, BuildRemoteImagePath, Source.RemotePaths, Lookup;
    var r := BuildRecord(existing, destination, source, images, metadata, resync);
    forall i | 0 <= i < |r.items| ensures r.items[i].path != r.metadataPath {
      PathsApart(source, i, i, |images|);
    }
    forall i, j | 0 <= i < j < |r.items| ensures r.items[i].path != r.items[j].path {
      PathsApart(source, i, j, |images|);
    }
    var previous := Resumable(existing, destination, resync);
    forall i | 0 <= i < |r.items|
      ensures r.items[i].imageSynced ==> Holds(remote, r.destination, r.items[i].path, r.items[i].image.sha256)
    {
      LookupFinds(previous, images[i].id);
    }
  }

  predicate Checkpointed(items: seq<Item>, id: nat) {
    Lookup(items, id).Some? && Lookup(items, id).value.metadataSynced
  }

  /** What a caller can see before the rebuild: the same destination, metadata and metadata path as before, no resync, a
      remote without that metadata, and every image whose metadata checkpoint is missing left out of the new plan. */
  ghost predicate Trap(existing: Option<Record>, destination: Destination, source: Source, images: seq<Artifact>,
                       metadata: Option<Artifact>, resync: bool, remote: Remote) {
    && existing.Some? && !resync && existing.value.destination == destination
    && metadata.Some? && existing.value.metadata == metadata
    && existing.value.metadataPath == source.RemotePaths().metadataPath
    && !Holds(remote, destination, existing.value.metadataPath, metadata.value.sha256)
    && images != [] && forall k :: 0 <= k < |images| ==> Checkpointed(existing.value.items, images[k].id)
  }

  /** The rebuilt plan believes in a metadata file that is not there in exactly one case. */
  lemma RebuildingTrustsMetadataIff(existing: Option<Record>, destination: Destination, source: Source,
                                    images: seq<Artifact>, metadata: Option<Artifact>, resync: bool, remote: Remote)
    requires existing.Some? ==> TruthfulPlan(existing.value, remote)
    ensures MetadataTruthful(BuildRecord(existing, destination, source, images, metadata, resync), remote) <==>
            !Trap(existing, destination, source, images, metadata, resync, remote)
  {
    assert forall id :: Lookup([], id) == None;
    hide BuildRemotePaths, BuildRemoteImagePath, Source.RemotePaths, Lookup, Holds, CanResumeImage;
    var r := BuildRecord(existing, destination, source, images, metadata, resync);
    var previous := Resumable(existing, destination, resync);
    forall k | 0 <= k < |images|
      ensures r.items[k].metadataSynced <==>
              metadata.Some? && existing.Some? && previous == existing.value.items && previous != [] &&
              existing.value.metadata == metadata && existing.value.metadataPath == r.metadataPath &&
              Checkpointed(previous, images[k].id)
    {
      LookupFinds(previous, images[k].id);
      assert r.items[k] == PlanItem(previous, images, k, metadata, source.RemotePaths());
    }
    if MetadataDone(r) {
      assert r.items[0].metadataSynced;
      assert forall k :: 0 <= k < |images| ==> r.items[k].metadataSynced && Checkpointed(previous, images[k].id);
    }
  }

  /** The plan that was built for these sources. */
  ghost predicate PlannedFor(r: Record, source: Source) {
    && r.metadata.Some? && r.metadataPath == source.RemotePaths().metadataPath
    && (forall i :: 0 <= i < |r.items| ==>
          r.items[i].path == BuildRemoteImagePath(source.RemotePaths().imagePath, i, |r.items|) &&
          r.items[i].metadata == r.metadata && r.items[i].metadataPath == r.metadataPath)
    && DistinctImages(r.items)
  }

  predicate DistinctImages(items: seq<Item>) {
    forall i, j :: 0 <= i < j < |items| ==> items[i].image.id != items[j].image.id
  }

  lemma {:induction false} LookupIsExact(items: seq<Item>, k: nat)
    requires k < |items| && DistinctImages(items)
    ensures Lookup(items, items[k].image.id) == Some(items[k])
  {
    if k < |items| - 1 {
      LookupIsExact(items[..|items| - 1], k);
    }
  }

  function Fresh(item: Item): Item {
    item.(imageSynced := false, metadataSynced := false)
  }

  /** A resync and a change of destination start from nothing; an unchanged retry resumes exactly what was done. */
  lemma RetryResumes(r: Record, source: Source, resync: bool, destination: Destination)
    requires PlannedFor(r, source)
    ensures var next := BuildRecord(Some(r), destination, source, Images(r), r.metadata, resync);
      && |next.items| == |r.items|
      && forall i :: 0 <= i < |r.items| ==>
           next.items[i] == if resync || destination != r.destination then Fresh(r.items[i]) else r.items[i]
  {
    hide BuildRemotePaths, BuildRemoteImagePath, Source.RemotePaths;
    var next := BuildRecord(Some(r), destination, source, Images(r), r.metadata, resync);
    forall i | 0 <= i < |r.items|
      ensures next.items[i] == if resync || destination != r.destination then Fresh(r.items[i]) else r.items[i]
    {
      LookupIsExact(r.items, i);
    }
  }

  /** So a plan whose checkpoints were true stays true when it keeps every image without a metadata checkpoint. */
  lemma KeepingTheImagesKeepsTheTruth(r: Record, destination: Destination, source: Source, images: seq<Artifact>,
                                      metadata: Option<Artifact>, resync: bool, remote: Remote)
    requires TruthfulPlan(r, remote) && MetadataTruthful(r, remote) && DistinctImages(r.items)
    requires forall i :: 0 <= i < |r.items| && !r.items[i].metadataSynced ==> r.items[i].image in images
    ensures MetadataTruthful(BuildRecord(Some(r), destination, source, images, metadata, resync), remote)
  {
    RebuildingTrustsMetadataIff(Some(r), destination, source, images, metadata, resync, remote);
    if Trap(Some(r), destination, source, images, metadata, resync, remote) {
      assert Checkpointed(r.items, images[0].id);
      var i :| 0 <= i < |r.items| && !r.items[i].metadataSynced;
      LookupIsExact(r.items, i);
      assert false;
    }
  }

  /** A metadata checkpoint is stored per image, and the metadata is copied again until all of them are. If such a
      repeated copy breaks the remote file, the checkpoints stored before stay set; once only their images are left,
      they vouch for a file that is not there. */
  lemma PartialMetadataCheckpointsCanLie(r: Record, source: Source, k: nat, remote: Remote)
    requires PlannedFor(r, source) && TruthfulPlan(r, remote) && k < |r.items| && r.items[k].metadataSynced
    requires !Holds(remote, r.destination, r.metadataPath, r.metadata.value.sha256)
    ensures var next := BuildRecord(Some(r), r.destination, source, [r.items[k].image], r.metadata, false);
      MetadataDone(next) && !MetadataTruthful(next, remote)
  {
    hide BuildRemotePaths, BuildRemoteImagePath, Source.RemotePaths;
    LookupIsExact(r.items, k);
  }

  function Images(r: Record): seq<Artifact> {
    seq(|r.items|, i requires 0 <= i < |r.items| => r.items[i].image)
  }

  // ---------- bytes ----------

  function ImageBytes(items: seq<Item>): nat {
    if items == [] then 0 else ImageBytes(items[..|items| - 1]) + items[|items| - 1].image.size
  }

  function SyncedBytes(items: seq<Item>): nat {
    if items == [] then 0
    else SyncedBytes(items[..|items| - 1]) + if items[|items| - 1].imageSynced then items[|items| - 1].image.size else 0
  }

  lemma {:induction false} SyncedIsPartOfAll(items: seq<Item>)
    ensures SyncedBytes(items) <= ImageBytes(items)
    ensures (forall i :: 0 <= i < |items| ==> items[i].imageSynced) ==> SyncedBytes(items) == ImageBytes(items)
  {
    if items != [] {
      SyncedIsPartOfAll(items[..|items| - 1]);
    }
  }

  /** A new checkpoint adds exactly its own size, and stays within the total. */
  lemma {:induction false} CheckpointAddsItsSize(items: seq<Item>, k: nat)
    requires k < |items| && !items[k].imageSynced
    ensures var after := items[k := items[k].(imageSynced := true)];
      SyncedBytes(after) == SyncedBytes(items) + items[k].image.size && ImageBytes(after) == ImageBytes(items)
    ensures SyncedBytes(items) + items[k].image.size <= ImageBytes(items)
  {
    var after := items[k := items[k].(imageSynced := true)];
    var n := |items| - 1;
    if k == n {
      assert after[..n] == items[..n];
      SyncedIsPartOfAll(items[..n]);
    } else {
      CheckpointAddsItsSize(items[..n], k);
      assert after[..n] == items[..n][k := items[k].(imageSynced := true)];
    }
  }

  lemma {:induction false} MetadataFlagsWeighNothing(items: seq<Item>, k: nat, flag: bool)
    requires k < |items|
    ensures var after := items[k := items[k].(metadataSynced := flag)];
      SyncedBytes(after) == SyncedBytes(items) && ImageBytes(after) == ImageBytes(items)
  {
    var after := items[k := items[k].(metadataSynced := flag)];
    var n := |items| - 1;
    if k == n {
      assert after[..n] == items[..n];
    } else {
      MetadataFlagsWeighNothing(items[..n], k, flag);
      assert after[..n] == items[..n][k := items[k].(metadataSynced := flag)];
    }
  }
}
