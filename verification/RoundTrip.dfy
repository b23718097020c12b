/** A directory that is packed and then unpacked into an empty target comes back. */
module RoundTrip {
  import opened Bundle
  import opened BundleSafety
  import opened BundleTheorems
  import opened Correspondence
  import opened Files
  import opened Manifest
  import opened Names
  import opened Outcomes
  import opened Prepare

  /** The records of the packed walk, delivered without faults. */
  ghost predicate Delivered(walk: seq<Item>, target: Path, archive: seq<Delivery>) {
    && |archive| == |walk|
    && forall k :: 0 <= k < |walk| ==> archive[k].record == RecordOf(walk[k]) && NoFault(target, archive[k])
  }

  ghost predicate EmptyTarget(before: Nodes, target: Path) {
    NoFileOn(before, target) && forall p :: p in before ==> !(target < p)
  }

  // ----- The probe passes on an empty target -----

  lemma WayIsClear(before: Nodes, target: Path, p: Path)
    requires EmptyTarget(before, target) && target <= p
    ensures NoFileOn(before, p)
  {
    forall k | |target| < k <= |p|
      ensures p[..k] !in before
    {
      assert target < p[..k];
    }
    forall k | 0 <= k <= |target|
      ensures p[..k] == target[..k]
    {
    }
  }

  lemma FitsEmpty(before: Nodes, target: Path, e: Entry, overwrite: bool)
    requires EmptyTarget(before, target)
    ensures EntryFits(before, target, e, overwrite)
  {
    hide NoFileOn;
    var dest := Dest(target, e.name);
    assert target < dest && target <= Parent(dest);
    WayIsClear(before, target, dest);
    WayIsClear(before, target, Parent(dest));
  }

  lemma ProbePasses(before: Nodes, target: Path, entries: seq<Entry>, overwrite: bool)
    requires EmptyTarget(before, target)
    ensures ProbeFine(before, target, entries, overwrite) <==> ValidManifest(entries)
  {
    hide ValidManifest, EntryFits, EmptyTarget;
    forall k | 0 <= k < |entries|
      ensures EntryFits(before, target, entries[k], overwrite)
    {
      FitsEmpty(before, target, entries[k], overwrite);
    }
  }

  // ----- The archive corresponds to the manifest -----

  lemma TrailingSlash(init: string)
    ensures !AllProper(Split(init + "/"))
  {
    hide Split;
    SplitAtSlash(init, "");
    SplitOfOne("");
    assert init + "/" + "" == init + "/";
    assert Split(init + "/")[|Split(init)|] == "";
  }

  lemma TrimOfSafe(name: string)
    requires SafeName(name)
    ensures Trim(name) == name
  {
    hide SafeName, Split, AllProper;
    SafeNameIsExact(name);
    TrailingSlash(Trim(name));
    assert Trim(name) != name ==> name == Trim(name) + "/";
  }

  lemma NameDelivered(walk: seq<Item>, target: Path, archive: seq<Delivery>, k: nat)
    requires AllPackable(walk) && Delivered(walk, target, archive) && k < |walk|
    ensures NameOf(archive[k]) == walk[k].rel
  {
    hide NoFault;
    assert Packable(walk[k]);
    TrimOfSafe(walk[k].rel);
  }

  lemma AcceptedDelivery(walk: seq<Item>, target: Path, entries: seq<Entry>, archive: seq<Delivery>, k: nat)
    requires IsWalk(walk) && AllPackable(walk) && ManifestOf(walk, entries)
    requires Delivered(walk, target, archive) && Indexes(IndexOf(entries), entries) && k < |walk|
    ensures Accepts(IndexOf(entries), archive[k].record)
  {
    hide NoFault, IsWalk, SafeName;
    NameDelivered(walk, target, archive, k);
    assert Packable(walk[k]);
    assert entries[k].name == walk[k].rel;
  }

  lemma DeliveredOnceEach(walk: seq<Item>, target: Path, archive: seq<Delivery>)
    requires IsWalk(walk) && AllPackable(walk) && Delivered(walk, target, archive)
    ensures OnceEach(archive)
  {
    hide AllPackable, Delivered, ParentIn, Split, NameOf;
    DeliveredLength(walk, target, archive);
    forall k | 0 <= k < |walk|
      ensures NameOf(archive[k]) == walk[k].rel
    {
      NameDelivered(walk, target, archive, k);
    }
  }

  lemma DeliveredLength(walk: seq<Item>, target: Path, archive: seq<Delivery>)
    requires Delivered(walk, target, archive)
    ensures |archive| == |walk| && NoFaults(target, archive)
  {
    hide NoFault;
  }

  lemma DeliveredAll(walk: seq<Item>, target: Path, entries: seq<Entry>, archive: seq<Delivery>, n: string)
    requires AllPackable(walk) && ManifestOf(walk, entries) && Delivered(walk, target, archive)
    requires Indexes(IndexOf(entries), entries) && n in IndexOf(entries)
    ensures Named(archive, n)
  {
    hide NoFault, AllPackable, IndexOf;
    var k :| 0 <= k < |entries| && entries[k] == IndexOf(entries)[n];
    NameDelivered(walk, target, archive, k);
    assert NameOf(archive[k]) == n;
  }

  lemma DeliveredOneToOne(walk: seq<Item>, target: Path, entries: seq<Entry>, archive: seq<Delivery>)
    requires IsWalk(walk) && AllPackable(walk) && ManifestOf(walk, entries) && Delivered(walk, target, archive)
    ensures OneToOne(archive, IndexOf(entries))
  {
    hide IsWalk, AllPackable, Delivered, IndexOf, Indexes, Accepts, OnceEach, Named, DistinctNames;
    WalkDistinct(walk, entries);
    IndexOfIsIndex(entries);
    DeliveredLength(walk, target, archive);
    DeliveredOnceEach(walk, target, archive);
    forall k | 0 <= k < |archive|
      ensures Accepts(IndexOf(entries), archive[k].record)
    {
      AcceptedDelivery(walk, target, entries, archive, k);
    }
    forall n | n in IndexOf(entries)
      ensures Named(archive, n)
    {
      DeliveredAll(walk, target, entries, archive, n);
    }
  }

  // ----- The result -----

  ghost predicate ItemRestored(after: Nodes, target: Path, item: Item) {
    var p := Dest(target, item.rel);
    && p in after
    && after[p] == if item.kind == Directory then DirNode else FileNode(item.content, FileMode(item.perm))
  }

  /** Below the target there is a node for every item and nothing else, each with the kind,
      the bytes and the masked mode of its item. */
  ghost predicate Restored(after: Nodes, target: Path, walk: seq<Item>) {
    && (forall k :: 0 <= k < |walk| ==> ItemRestored(after, target, walk[k]))
    && (forall p :: p in after && target < p ==> exists k :: 0 <= k < |walk| && p == Dest(target, walk[k].rel))
  }

  lemma NodeIsItem(walk: seq<Item>, target: Path, archive: seq<Delivery>, p: Path)
    requires IsWalk(walk) && AllPackable(walk) && Delivered(walk, target, archive)
    requires target < p && Touched(target, archive, p)
    ensures exists k :: 0 <= k < |walk| && p == Dest(target, walk[k].rel)
  {
    hide IsWalk, AllPackable, Delivered, Split, NameOf;
    DeliveredLength(walk, target, archive);
    var k :| 0 <= k < |archive| && Touches(target, archive[k], p);
    NameDelivered(walk, target, archive, k);
    var parts := Split(walk[k].rel);
    var m := |p| - |target|;
    assert p == Dest(target, walk[k].rel)[..|p|] == target + parts[..m];
    AncestorsAreItems(walk, k, m);
    var j :| 0 <= j < |walk| && Split(walk[j].rel) == parts[..m];
    assert p == Dest(target, walk[j].rel);
  }

  lemma FileRestored(after: Nodes, target: Path, walk: seq<Item>, entries: seq<Entry>,
                     archive: seq<Delivery>, k: nat)
    requires AllPackable(walk) && ManifestOf(walk, entries) && Delivered(walk, target, archive)
    requires Indexes(IndexOf(entries), entries) && RightFiles(after, target, IndexOf(entries), archive)
    requires k < |walk| && walk[k].kind != Directory
    ensures ItemRestored(after, target, walk[k])
  {
    hide NoFault, AllPackable, IndexOf, FileMode, Dest;
    NameDelivered(walk, target, archive, k);
    assert HoldsFile(after, target, IndexOf(entries), archive[k]);
    assert IndexOf(entries)[entries[k].name] == entries[k];
  }

  lemma DirIsNoFileDest(walk: seq<Item>, target: Path, entries: seq<Entry>, archive: seq<Delivery>, k: nat)
    requires ManifestOf(walk, entries) && Indexes(IndexOf(entries), entries)
    requires k < |walk| && walk[k].kind == Directory
    ensures !FileDest(target, IndexOf(entries), archive, Dest(target, walk[k].rel))
  {
    hide IndexOf, Dest, NameOf;
    var wanted := IndexOf(entries);
    assert wanted[entries[k].name] == entries[k];
    forall j | 0 <= j < |archive|
      ensures !PutsFile(target, wanted, archive[j], Dest(target, walk[k].rel))
    {
      if Dest(target, NameOf(archive[j])) == Dest(target, walk[k].rel) {
        DestInjective(target, NameOf(archive[j]), walk[k].rel);
      }
    }
  }

  lemma DirRestored(before: Nodes, after: Nodes, target: Path, walk: seq<Item>, entries: seq<Entry>,
                    archive: seq<Delivery>, k: nat)
    requires EmptyTarget(before, target) && AllPackable(walk)
    requires ManifestOf(walk, entries) && Delivered(walk, target, archive)
    requires Indexes(IndexOf(entries), entries)
    requires RightPaths(before, after, target, archive)
    requires RightRest(before, after, target, IndexOf(entries), archive)
    requires k < |walk| && walk[k].kind == Directory
    ensures ItemRestored(after, target, walk[k])
  {
    hide AllPackable, IndexOf, NoFault, NoFileOn, FileDest, Split, ManifestOf, Indexes;
    NameDelivered(walk, target, archive, k);
    var p := Dest(target, walk[k].rel);
    assert Touches(target, archive[k], p);
    assert target < p;
    DirIsNoFileDest(walk, target, entries, archive, k);
  }

  lemma RestoredIfRebuilt(before: Nodes, after: Nodes, target: Path, walk: seq<Item>, entries: seq<Entry>,
                          archive: seq<Delivery>)
    requires EmptyTarget(before, target) && IsWalk(walk) && AllPackable(walk)
    requires ManifestOf(walk, entries) && Delivered(walk, target, archive)
    requires Indexes(IndexOf(entries), entries)
    requires Rebuilt(before, after, target, IndexOf(entries), archive)
    ensures Restored(after, target, walk)
  {
    hide IsWalk, AllPackable, ManifestOf, Delivered, Indexes, IndexOf, RightFiles, RightRest,
         ItemRestored, Touched, NoFileOn, Dest;
    forall k | 0 <= k < |walk|
      ensures ItemRestored(after, target, walk[k])
    {
      if walk[k].kind == Directory {
        DirRestored(before, after, target, walk, entries, archive, k);
      } else {
        FileRestored(after, target, walk, entries, archive, k);
      }
    }
    forall p | p in after && target < p
      ensures exists k :: 0 <= k < |walk| && p == Dest(target, walk[k].rel)
    {
      NodeIsItem(walk, target, archive, p);
    }
  }

  /** Packing and then unpacking into an empty target succeeds exactly when the contents stay
      within the size limit, and then rebuilds the same names, kinds and bytes. */
  lemma DirectoryRoundTrip(before: Nodes, target: Path, walk: seq<Item>, entries: seq<Entry>,
                           overwrite: bool, archive: seq<Delivery>)
    requires Tree(before) && EmptyTarget(before, target) && IsWalk(walk) && AllPackable(walk)
    requires ManifestOf(walk, entries) && Delivered(walk, target, archive)
    ensures
      var result := Extraction(before, target, entries, overwrite, archive, true, true);
      && (result.ok <==> Total(entries) <= MAX_BYTES as int)
      && (result.ok ==> Restored(result.nodes, target, walk))
  {
    hide Tree, EmptyTarget, IsWalk, AllPackable, ManifestOf, Delivered, Total, Extraction, ValidManifest,
         OneToOne, Matched, NoFaults, Rebuilt, Restored, IndexOf, Indexes, DistinctNames, AllFit;
    WalkManifest(walk, entries);
    ProbePasses(before, target, entries, overwrite);
    DeliveredOneToOne(walk, target, entries, archive);
    DeliveredLength(walk, target, archive);
    OneToOneHere(archive, entries);
    SucceedsExactlyWhen(before, target, entries, overwrite, archive, true, true);
    var result := Extraction(before, target, entries, overwrite, archive, true, true);
    if result.ok {
      SuccessIsExact(before, target, entries, overwrite, archive, true, true);
      WalkDistinct(walk, entries);
      IndexOfIsIndex(entries);
      RestoredIfRebuilt(before, result.nodes, target, walk, entries, archive);
    }
  }

  // ----- Both methods together -----

  function EntriesOf(walk: seq<Item>): seq<Entry> {
    seq(|walk|, k requires 0 <= k < |walk| => EntryOf(walk[k]))
  }

  /** The records of an archive, met by a file system without faults. */
  method DeliverAll(archive: seq<Record>, target: Path) returns (deliveries: seq<Delivery>)
    ensures |deliveries| == |archive|
    ensures forall k :: 0 <= k < |archive| ==> deliveries[k].record == archive[k] && NoFault(target, deliveries[k])
  {
    hide Split;
    deliveries := [];
    for i := 0 to |archive|
      invariant |deliveries| == i
      invariant forall k :: 0 <= k < i ==> deliveries[k].record == archive[k] && NoFault(target, deliveries[k])
    {
      deliveries := deliveries + [Delivery(archive[i], |Dest(target, Trim(archive[i].name))|, true)];
    }
  }

  lemma PackedIsManifest(walk: seq<Item>, s: Source)
    requires Packed(walk, s)
    ensures ManifestOf(walk, s.entries) && s.entries == EntriesOf(walk)
  {
    hide EntryOf, RecordOf;
  }

  lemma PackedIsDelivered(walk: seq<Item>, s: Source, target: Path, deliveries: seq<Delivery>)
    requires Packed(walk, s) && |deliveries| == |s.archive|
    requires forall k :: 0 <= k < |s.archive| ==>
               deliveries[k].record == s.archive[k] && NoFault(target, deliveries[k])
    ensures Delivered(walk, target, deliveries)
  {
    hide EntryOf, RecordOf, NoFault;
  }

  lemma RootPackable(walk: seq<Item>)
    requires IsWalk(walk) && AllPackable(walk)
    ensures SafeName(walk[0].rel)
  {
    hide ParentIn, Split, SafeName;
    assert Packable(walk[0]);
  }

  /** Packs a directory as it is walked over and unpacks the result into an empty target. */
  method PackAndUnpack(walk: seq<Item>, disk: Disk, target: Path, overwrite: bool) returns (ok: bool)
    requires IsWalk(walk) && Tree(disk.nodes) && EmptyTarget(disk.nodes, target)
    modifies disk
    ensures ok <==> AllPackable(walk) && Total(EntriesOf(walk)) <= MAX_BYTES as int
    ensures ok ==> Restored(disk.nodes, target, walk)
    ensures OnlyManifestChanged(old(disk.nodes), disk.nodes, target, IndexOf(EntriesOf(walk)))
  {
    WalkNotEmpty(walk);
    WalkRoot(walk);
    hide IsWalk, Tree, EmptyTarget, SafeName, Packed, Delivered, Total, Extraction, Restored, IndexOf, ManifestOf,
         Split, NoFault, Needed;
    if AllPackable(walk) {
      RootPackable(walk);
    }
    var source := PrepareSource(walk[0], walk, |walk|);
    if source.Err? {
      return false;
    }
    PackedIsManifest(walk, source.value);
    var deliveries := DeliverAll(source.value.archive, target);
    PackedIsDelivered(walk, source.value, target, deliveries);
    ghost var before := disk.nodes;
    DirectoryRoundTrip(before, target, walk, source.value.entries, overwrite, deliveries);
    ExtractionFrame(before, target, source.value.entries, overwrite, deliveries, true, true);
    ok := Extract(disk, target, source.value.entries, overwrite, deliveries, true, true, None);
  }

  lemma WalkRoot(walk: seq<Item>)
    requires IsWalk(walk)
    ensures walk[0].kind == Directory
  {
    hide ParentIn, Split;
  }
}
