/** Unpacking an archive below a target directory under the control of a manifest. */
module Bundle {
  import opened Chunks
  import opened Files
  import opened Integers
  import opened Manifest
  import opened Names
  import opened Outcomes

  datatype Kind = Regular | Directory | Other

  datatype Record = Record(name: string, kind: Kind, size: int64, content: Bytes)

  /** A record as it meets the file system: how deep directories can be made while it is
      unpacked, and whether its bytes could be stored in a temporary file. */
  datatype Delivery = Delivery(record: Record, reach: nat, stored: bool)

  type Wanted = map<string, Entry>

  function Trim(name: string): string {
    if name != "" && name[|name| - 1] == '/' then name[..|name| - 1] else name
  }

  function Dest(target: Path, name: string): (r: Path)
    ensures |r| > |target|
  {
    target + Split(name)
  }

  /** The nine permission bits of an int64 mode, cut down to 0755. */
  function FileMode(mode: int64): bv9 {
    ((mode as int % 512) as bv9) & 0x1ED
  }

  function IndexOf(entries: seq<Entry>): Wanted {
    if entries == [] then map[]
    else
      var last := entries[|entries| - 1];
      IndexOf(entries[..|entries| - 1])[last.name := last]
  }

  // ----- The probe -----

  /** A directory may find a directory at its destination, and a file a file if replacing it was
      allowed; above it there may only be directories. */
  ghost predicate EntryFits(nodes: Nodes, target: Path, e: Entry, overwrite: bool) {
    var dest := Dest(target, e.name);
    && (dest in nodes ==> if e.dir then nodes[dest].DirNode? else nodes[dest].FileNode? && overwrite)
    && NoFileOn(nodes, if e.dir then dest else Parent(dest))
  }

  ghost predicate AllFit(nodes: Nodes, target: Path, entries: seq<Entry>, overwrite: bool) {
    forall k :: 0 <= k < |entries| ==> EntryFits(nodes, target, entries[k], overwrite)
  }

  ghost predicate ProbeFine(nodes: Nodes, target: Path, entries: seq<Entry>, overwrite: bool) {
    ValidManifest(entries) && AllFit(nodes, target, entries, overwrite)
  }

  lemma NearestDecides(nodes: Nodes, p: Path, k: nat)
    requires Tree(nodes) && k <= |p| && p[..k] in nodes
    requires forall j :: k < j <= |p| ==> p[..j] !in nodes
    ensures NoFileOn(nodes, p) <==> nodes[p[..k]].DirNode?
  {
    forall j | 0 <= j < k
      ensures p[..j] in nodes && nodes[p[..j]].DirNode?
    {
      assert p[..k][..j] == p[..j];
    }
  }

  /** Climbs to the nearest existing node and looks whether it is a directory. */
  method NearestIsDirectory(nodes: Nodes, p: Path) returns (ok: bool)
    requires Tree(nodes)
    ensures ok <==> NoFileOn(nodes, p)
  {
    var parent := p;
    assert p[..|p|] == p;
    while parent !in nodes
      invariant parent <= p
      invariant forall j :: |parent| < j <= |p| ==> p[..j] !in nodes
      decreases |parent|
    {
      assert parent == p[..|parent|];
      parent := Parent(parent);
    }
    assert parent == p[..|parent|];
    NearestDecides(nodes, p, |parent|);
    ok := nodes[parent].DirNode?;
  }

  /** Walks down the path and stops at the first symbolic link. */
  method Resolve(nodes: Nodes, p: Path) returns (ok: bool)
    ensures ok <==> !ThroughLink(nodes, p)
  {
    for k := 0 to |p| + 1
      invariant forall j :: 0 <= j < k && p[..j] in nodes ==> !nodes[p[..j]].LinkNode?
    {
      if p[..k] in nodes && nodes[p[..k]].LinkNode? {
        return false;
      }
    }
    ok := true;
  }

  lemma ClearMeetsNoLink(nodes: Nodes, dest: Path, dir: bool)
    requires dest != [] && (dest in nodes ==> !nodes[dest].LinkNode?)
    requires NoFileOn(nodes, if dir then dest else Parent(dest))
    ensures !ThroughLink(nodes, dest)
  {
    forall k | 0 <= k <= |dest| && dest[..k] in nodes
      ensures !nodes[dest[..k]].LinkNode?
    {
      if k == |dest| {
        assert dest[..k] == dest;
      } else {
        assert Parent(dest)[..k] == dest[..k];
      }
    }
  }

  lemma DestIsNoLink(nodes: Nodes, dest: Path)
    requires !ThroughLink(nodes, dest) && dest in nodes
    ensures !nodes[dest].LinkNode?
  {
    assert dest[..|dest|] == dest;
  }

  const TWO_64: nat := 0x1_0000_0000_0000_0000

  /** The bytes still to be stored, as the unsigned 64-bit number that is compared. */
  function Needed(entries: seq<Entry>, extra: int64): nat {
    (Total(entries) + extra as int) % TWO_64
  }

  /** Without a number for the free space there is no check. */
  predicate HasRoom(entries: seq<Entry>, extra: int64, available: Option<nat>) {
    available.None? || Needed(entries, extra) <= available.value
  }

  /** A directory's size is zero, so the files make up the total. */
  lemma DirsWeighNothing(entries: seq<Entry>, k: nat)
    requires AllGood(entries) && k < |entries|
    ensures Total(entries[..k + 1]) ==
            Total(entries[..k]) + if entries[k].dir then 0 else entries[k].size as int
    ensures Total(entries[..k + 1]) <= Total(entries) && 0 <= entries[k].size
  {
    TotalOfNext(entries, k);
    TotalGrows(entries, k + 1);
    assert GoodEntry(entries[k]);
  }

  method ProbeEntry(nodes: Nodes, target: Path, e: Entry, overwrite: bool) returns (ok: bool)
    requires Tree(nodes)
    ensures ok <==> EntryFits(nodes, target, e, overwrite)
  {
    hide Tree, NoFileOn, Split, ThroughLink;
    var dest := Dest(target, e.name);
    ok := Resolve(nodes, dest);
    if !ok {
      if EntryFits(nodes, target, e, overwrite) {
        ClearMeetsNoLink(nodes, dest, e.dir);
      }
      return false;
    }
    if dest in nodes {
      DestIsNoLink(nodes, dest);
      if nodes[dest].DirNode? != e.dir || (!e.dir && !overwrite) {
        return false;
      }
    }
    ok := NearestIsDirectory(nodes, if e.dir then dest else Parent(dest));
  }

  /** The entries one by one, with the bytes of the files among them. */
  method ProbeEntries(nodes: Nodes, target: Path, entries: seq<Entry>, overwrite: bool)
    returns (ok: bool, bytes: int64)
    requires Tree(nodes) && AllGood(entries) && Total(entries) <= MAX_BYTES as int
    ensures ok <==> AllFit(nodes, target, entries, overwrite)
    ensures ok ==> bytes as int == Total(entries)
  {
    hide Tree, EntryFits, AllGood;
    bytes := 0;
    for i := 0 to |entries|
      invariant forall k :: 0 <= k < i ==> EntryFits(nodes, target, entries[k], overwrite)
      invariant 0 <= bytes && bytes as int == Total(entries[..i])
    {
      var fits := ProbeEntry(nodes, target, entries[i], overwrite);
      if !fits {
        return false, bytes;
      }
      DirsWeighNothing(entries, i);
      if !entries[i].dir {
        bytes := bytes + entries[i].size;
      }
    }
    assert entries[..|entries|] == entries;
    ok := true;
  }

  /** writable stands for write access; available is the free space, if it is known. */
  method ProbeTarget(nodes: Nodes, target: Path, entries: seq<Entry>, overwrite: bool, extra: int64,
                     writable: bool, available: Option<nat>)
    returns (ok: bool, bytes: int64)
    requires Tree(nodes)
    ensures ok <==> writable && ProbeFine(nodes, target, entries, overwrite) && HasRoom(entries, extra, available)
    ensures ok ==> bytes as int == Total(entries)
  {
    hide Tree, AllGood, DistinctNames, NoFileAbove, EntryFits, Total, HasRoom;
    ok, bytes := false, 0;
    var valid := ValidateEntries(entries);
    if valid {
      ok, bytes := ProbeEntries(nodes, target, entries, overwrite);
    }
    ok := ok && writable && HasRoom(entries, extra, available);
  }

  // ----- Unpacking -----

  /** The record is one that is still expected, with the manifest's size and kind. */
  predicate Accepts(expected: Wanted, r: Record) {
    var name := Trim(r.name);
    && name in expected && SafeName(name) && r.size == expected[name].size
    && r.kind != Other && (r.kind == Directory) == expected[name].dir
  }

  datatype Progress = Going(nodes: Nodes, expected: Wanted) | Stopped(nodes: Nodes)

  function Store(nodes: Nodes, dest: Path, overwrite: bool, d: Delivery, mode: bv9): Effect
    requires dest != []
  {
    var dirs := MkdirSpec(nodes, Parent(dest), d.reach);
    if !dirs.ok || !d.stored || (dest in dirs.nodes && (!overwrite || dirs.nodes[dest].DirNode?))
    then Effect(dirs.nodes, false)
    else Effect(dirs.nodes[dest := FileNode(d.record.content, mode)], true)
  }

  function Place(nodes: Nodes, dest: Path, e: Entry, overwrite: bool, d: Delivery): Effect
    requires dest != []
  {
    if ThroughLink(nodes, dest) then Effect(nodes, false)
    else if e.dir then MkdirSpec(nodes, dest, d.reach)
    else Store(nodes, dest, overwrite, d, FileMode(e.mode))
  }

  function Unpack(nodes: Nodes, expected: Wanted, target: Path, overwrite: bool, d: Delivery): Progress {
    if !Accepts(expected, d.record) then Stopped(nodes)
    else
      var name := Trim(d.record.name);
      var effect := Place(nodes, Dest(target, name), expected[name], overwrite, d);
      if effect.ok then Going(effect.nodes, expected - {name}) else Stopped(effect.nodes)
  }

  function Run(nodes: Nodes, wanted: Wanted, target: Path, overwrite: bool, archive: seq<Delivery>): Progress {
    if archive == [] then Going(nodes, wanted)
    else
      match Run(nodes, wanted, target, overwrite, archive[..|archive| - 1])
      case Going(now, expected) => Unpack(now, expected, target, overwrite, archive[|archive| - 1])
      case Stopped(now) => Stopped(now)
  }

  /** complete says that the archive ended properly and nothing cancelled the call. */
  ghost function Extraction(nodes: Nodes, target: Path, entries: seq<Entry>, overwrite: bool,
                            archive: seq<Delivery>, complete: bool, usable: bool): Effect {
    if !usable || !ProbeFine(nodes, target, entries, overwrite) then Effect(nodes, false)
    else
      match Run(nodes, IndexOf(entries), target, overwrite, archive)
      case Going(now, expected) => Effect(now, complete && expected == map[])
      case Stopped(now) => Effect(now, false)
  }

  lemma {:induction false} StoppedStays(nodes: Nodes, wanted: Wanted, target: Path, overwrite: bool,
                                        archive: seq<Delivery>, k: nat)
    requires k <= |archive| && Run(nodes, wanted, target, overwrite, archive[..k]).Stopped?
    ensures Run(nodes, wanted, target, overwrite, archive) == Run(nodes, wanted, target, overwrite, archive[..k])
    decreases |archive|
  {
    if k == |archive| {
      assert archive[..k] == archive;
    } else {
      var init := archive[..|archive| - 1];
      assert init[..k] == archive[..k];
      StoppedStays(nodes, wanted, target, overwrite, init, k);
    }
  }

  lemma RunNext(nodes: Nodes, wanted: Wanted, target: Path, overwrite: bool, archive: seq<Delivery>, k: nat)
    requires k < |archive|
    ensures
      Run(nodes, wanted, target, overwrite, archive[..k + 1]) ==
      match Run(nodes, wanted, target, overwrite, archive[..k])
      case Going(now, expected) => Unpack(now, expected, target, overwrite, archive[k])
      case Stopped(now) => Stopped(now)
  {
    assert archive[..k + 1][..k] == archive[..k];
  }

  method MakeIndex(entries: seq<Entry>) returns (expected: Wanted)
    ensures expected == IndexOf(entries)
  {
    expected := map[];
    for i := 0 to |entries|
      invariant expected == IndexOf(entries[..i])
    {
      assert entries[..i + 1][..i] == entries[..i];
      expected := expected[entries[i].name := entries[i]];
    }
    assert entries[..|entries|] == entries;
  }

  method StoreFile(disk: Disk, dest: Path, overwrite: bool, d: Delivery, mode: bv9) returns (ok: bool)
    requires dest != []
    modifies disk
    ensures Effect(disk.nodes, ok) == Store(old(disk.nodes), dest, overwrite, d, mode)
  {
    ok := disk.MkdirAll(Parent(dest), d.reach);
    if !ok || !d.stored {
      return false;
    }
    if !overwrite && dest in disk.nodes {
      return false;
    }
    ok := disk.Rename(dest, d.record.content, mode);
  }

  method Extract(disk: Disk, target: Path, entries: seq<Entry>, overwrite: bool,
                 archive: seq<Delivery>, complete: bool, writable: bool, available: Option<nat>)
    returns (ok: bool)
    requires Tree(disk.nodes)
    modifies disk
    ensures Effect(disk.nodes, ok) ==
            Extraction(old(disk.nodes), target, entries, overwrite, archive, complete,
                       writable && HasRoom(entries, 0, available))
  {
    hide ThroughLink, HasRoom, Tree, ProbeFine, Split, SafeName, MkdirSpec, Store, FileMode;
    ghost var start := disk.nodes;
    var fine, _ := ProbeTarget(disk.nodes, target, entries, overwrite, 0, writable, available);
    if !fine {
      return false;
    }
    var expected := MakeIndex(entries);
    ghost var wanted := expected;
    for i := 0 to |archive|
      invariant Run(start, wanted, target, overwrite, archive[..i]) == Going(disk.nodes, expected)
    {
      var d := archive[i];
      RunNext(start, wanted, target, overwrite, archive, i);
      var name := Trim(d.record.name);
      if !Accepts(expected, d.record) {
        StoppedStays(start, wanted, target, overwrite, archive, i + 1);
        return false;
      }
      var entry := expected[name];
      expected := expected - {name};
      var dest := Dest(target, name);
      var placed := Resolve(disk.nodes, dest);
      if !placed {
        StoppedStays(start, wanted, target, overwrite, archive, i + 1);
        return false;
      }
      if entry.dir {
        placed := disk.MkdirAll(dest, d.reach);
      } else {
        placed := StoreFile(disk, dest, overwrite, d, FileMode(entry.mode));
      }
      if !placed {
        StoppedStays(start, wanted, target, overwrite, archive, i + 1);
        return false;
      }
    }
    assert archive[..|archive|] == archive;
    ok := complete && expected == map[];
  }
}
