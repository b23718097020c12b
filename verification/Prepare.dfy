/** Packing a directory, and the round trip of packing and unpacking. */
module Prepare {
  import opened Bundle
  import opened BundleSafety
  import opened BundleTheorems
  import opened Chunks
  import opened Files
  import opened Integers
  import opened Manifest
  import opened Names
  import opened Outcomes

  /** One step of the walk over the source: its name relative to the parent of the source. */
  datatype Item = Item(rel: string, kind: Kind, size: int64, perm: int64, content: Bytes)

  datatype Source = Source(entries: seq<Entry>, archive: seq<Record>, bundled: bool)

  predicate Packable(item: Item) {
    item.kind != Other && SafeName(item.rel)
  }

  function EntryOf(item: Item): Entry {
    Entry(item.rel, if item.kind == Directory then 0 else item.size, item.kind == Directory, item.perm)
  }

  function RecordOf(item: Item): Record {
    Record(item.rel, item.kind, if item.kind == Directory then 0 else item.size,
           if item.kind == Directory then [] else item.content)
  }

  ghost predicate Packed(walk: seq<Item>, s: Source) {
    && |s.entries| == |walk| && |s.archive| == |walk|
    && (forall k :: 0 <= k < |walk| ==> s.entries[k] == EntryOf(walk[k]))
    && (forall k :: 0 <= k < |walk| ==> s.archive[k] == RecordOf(walk[k]))
  }

  /** failAt is the item at which reading the source fails or the call is cancelled. */
  method PrepareSource(root: Item, walk: seq<Item>, failAt: nat) returns (r: Result<Source, string>)
    ensures root.kind == Regular && SafeName(root.rel) ==>
              r == Ok(Source([EntryOf(root)], [], false))
    ensures root.kind == Other || !SafeName(root.rel) ==> r.Err?
    ensures root.kind == Directory && SafeName(root.rel) ==>
              (r.Ok? <==> |walk| <= MAX_ENTRIES && failAt >= |walk| &&
                          forall k :: 0 <= k < |walk| ==> Packable(walk[k]))
    ensures root.kind == Directory && r.Ok? ==> r.value.bundled && Packed(walk, r.value)
  {
    hide SafeName;
    if !SafeName(root.rel) {
      return Err("incompatible name");
    }
    if root.kind == Regular {
      return Ok(Source([Entry(root.rel, root.size, false, root.perm)], [], false));
    }
    if root.kind != Directory {
      return Err("neither a regular file nor a directory");
    }
    var entries: seq<Entry> := [];
    var archive: seq<Record> := [];
    for i := 0 to |walk|
      invariant Packed(walk[..i], Source(entries, archive, true))
      invariant i <= failAt && |entries| <= MAX_ENTRIES
      invariant forall k :: 0 <= k < i ==> Packable(walk[k])
    {
      var item := walk[i];
      if i == failAt {
        return Err("source failed");
      }
      if item.kind == Other {
        assert !Packable(walk[i]);
        return Err("link or special file");
      }
      if !SafeName(item.rel) {
        assert !Packable(walk[i]);
        return Err("invalid path");
      }
      if |entries| >= MAX_ENTRIES {
        return Err("too many entries");
      }
      var dir := item.kind == Directory;
      var size := if dir then 0 else item.size;
      entries := entries + [Entry(item.rel, size, dir, item.perm)];
      archive := archive + [Record(item.rel, item.kind, size, if dir then [] else item.content)];
    }
    assert walk[..|walk|] == walk;
    r := Ok(Source(entries, archive, true));
  }

  // ----- What a walk over a directory is -----

  ghost predicate ParentIn(walk: seq<Item>, parts: seq<string>) {
    |parts| >= 2 &&
    exists j :: 0 <= j < |walk| && walk[j].kind == Directory && Split(walk[j].rel) == Parent(parts)
  }

  /** The directory itself first, every path once, and every other item inside a directory
      of the walk; files are as long as their size says. */
  ghost predicate IsWalk(walk: seq<Item>) {
    && |walk| >= 1 && walk[0].kind == Directory && |Split(walk[0].rel)| == 1
    && (forall k :: 1 <= k < |walk| ==> ParentIn(walk, Split(walk[k].rel)))
    && (forall j, k :: 0 <= j < k < |walk| ==> walk[j].rel != walk[k].rel)
    && (forall k :: 0 <= k < |walk| && walk[k].kind == Regular ==> walk[k].size as int == |walk[k].content|)
  }

  ghost predicate AllPackable(walk: seq<Item>) {
    |walk| <= MAX_ENTRIES && forall k :: 0 <= k < |walk| ==> Packable(walk[k])
  }

  ghost predicate ItemAt(walk: seq<Item>, parts: seq<string>, dir: bool) {
    exists j :: 0 <= j < |walk| && Split(walk[j].rel) == parts && (dir ==> walk[j].kind == Directory)
  }

  lemma ParentIsItem(walk: seq<Item>, parts: seq<string>)
    requires IsWalk(walk) && ItemAt(walk, parts, false) && |parts| >= 2
    ensures ItemAt(walk, Parent(parts), true)
  {
  }

  /** Whatever lies above an item is a directory of the walk. */
  lemma {:induction false} AncestorsAreItems(walk: seq<Item>, k: nat, m: nat)
    requires IsWalk(walk) && k < |walk| && 1 <= m <= |Split(walk[k].rel)|
    ensures ItemAt(walk, Split(walk[k].rel)[..m], m < |Split(walk[k].rel)|)
    decreases |Split(walk[k].rel)| - m
  {
    hide Split, IsWalk;
    var parts := Split(walk[k].rel);
    if m == |parts| {
      assert parts[..m] == parts;
    } else {
      AncestorsAreItems(walk, k, m + 1);
      WeakerItem(walk, parts[..m + 1], m + 1 < |parts|);
      ParentIsItem(walk, parts[..m + 1]);
      assert Parent(parts[..m + 1]) == parts[..m];
    }
  }

  lemma WeakerItem(walk: seq<Item>, parts: seq<string>, dir: bool)
    requires ItemAt(walk, parts, dir)
    ensures ItemAt(walk, parts, false)
  {
  }

  // ----- The manifest of a walk -----

  ghost predicate ManifestOf(walk: seq<Item>, entries: seq<Entry>) {
    |entries| == |walk| && forall k :: 0 <= k < |walk| ==> entries[k] == EntryOf(walk[k])
  }

  lemma NothingBlocks(walk: seq<Item>, j: nat, k: nat)
    requires IsWalk(walk) && j < |walk| && k < |walk|
    ensures !Blocks(EntryOf(walk[j]), walk[k].rel)
  {
    hide Split, IsWalk;
    var above, parts := Split(walk[j].rel), Split(walk[k].rel);
    if above < parts {
      AncestorsAreItems(walk, k, |above|);
      assert parts[..|above|] == above;
      DirItem(walk, above, j);
    }
  }

  lemma DirItem(walk: seq<Item>, parts: seq<string>, j: nat)
    requires IsWalk(walk) && j < |walk| && Split(walk[j].rel) == parts && ItemAt(walk, parts, true)
    ensures walk[j].kind == Directory
  {
    hide Split;
    var i :| 0 <= i < |walk| && Split(walk[i].rel) == parts && walk[i].kind == Directory;
    SplitInjective(walk[i].rel, walk[j].rel);
  }

  ghost predicate NonNegative(entries: seq<Entry>) {
    forall k :: 0 <= k < |entries| ==> 0 <= entries[k].size
  }

  lemma {:induction false} PartOfTotal(entries: seq<Entry>)
    requires NonNegative(entries)
    ensures 0 <= Total(entries)
    ensures forall k :: 0 <= k < |entries| ==> entries[k].size as int <= Total(entries)
  {
    if entries != [] {
      var init := entries[..|entries| - 1];
      PartOfTotal(init);
      forall k | 0 <= k < |entries|
        ensures entries[k].size as int <= Total(entries)
      {
        assert k < |init| ==> init[k] == entries[k];
      }
    }
  }

  lemma WalkSizes(walk: seq<Item>, entries: seq<Entry>)
    requires IsWalk(walk) && ManifestOf(walk, entries) && AllPackable(walk)
    ensures NonNegative(entries)
  {
  }

  lemma WalkGood(walk: seq<Item>, entries: seq<Entry>)
    requires ManifestOf(walk, entries) && AllPackable(walk) && NonNegative(entries)
    requires Total(entries) <= MAX_BYTES as int
    ensures AllGood(entries)
  {
    hide SafeName, Total;
    PartOfTotal(entries);
    forall k | 0 <= k < |entries|
      ensures GoodEntry(entries[k])
    {
      assert Packable(walk[k]);
    }
  }

  lemma WalkDistinct(walk: seq<Item>, entries: seq<Entry>)
    requires IsWalk(walk) && ManifestOf(walk, entries)
    ensures DistinctNames(entries)
  {
    hide ParentIn, Split;
  }

  lemma WalkNotBlocked(walk: seq<Item>, entries: seq<Entry>)
    requires IsWalk(walk) && ManifestOf(walk, entries)
    ensures NoFileAbove(entries)
  {
    hide IsWalk, Blocks;
    forall j, k | 0 <= j < |entries| && 0 <= k < |entries|
      ensures !Blocks(entries[j], entries[k].name)
    {
      NothingBlocks(walk, j, k);
    }
  }

  /** The only thing packing leaves to the receiver to find out is the total size. */
  lemma WalkManifest(walk: seq<Item>, entries: seq<Entry>)
    requires IsWalk(walk) && ManifestOf(walk, entries) && AllPackable(walk)
    ensures ValidManifest(entries) <==> Total(entries) <= MAX_BYTES as int
  {
    hide Total, AllGood, DistinctNames, NoFileAbove, NonNegative, Packable;
    WalkNotEmpty(walk);
    WalkSizes(walk, entries);
    WalkDistinct(walk, entries);
    WalkNotBlocked(walk, entries);
    if Total(entries) <= MAX_BYTES as int {
      WalkGood(walk, entries);
    }
  }

  lemma WalkNotEmpty(walk: seq<Item>)
    requires IsWalk(walk)
    ensures |walk| >= 1
  {
    hide ParentIn, Split;
  }
}
