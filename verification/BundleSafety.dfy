/** What unpacking does to the disk, for every archive, manifest and disk. */
module BundleSafety {
  import opened Bundle
  import opened Files
  import opened Manifest
  import opened Names

  // ----- Names used up so far -----

  function NameOf(d: Delivery): string {
    Trim(d.record.name)
  }

  ghost predicate Named(done: seq<Delivery>, n: string) {
    exists k :: 0 <= k < |done| && NameOf(done[k]) == n
  }

  ghost predicate OnceEach(done: seq<Delivery>) {
    forall j, k :: 0 <= j < k < |done| ==> NameOf(done[j]) != NameOf(done[k])
  }

  ghost predicate AllAccepted(done: seq<Delivery>, wanted: Wanted) {
    forall k :: 0 <= k < |done| ==> Accepts(wanted, done[k].record)
  }

  /** One record per entry and one entry per record, equal in size and kind. */
  ghost predicate OneToOne(archive: seq<Delivery>, wanted: Wanted) {
    && AllAccepted(archive, wanted)
    && OnceEach(archive)
    && forall n :: n in wanted ==> Named(archive, n)
  }

  ghost predicate Remaining(expected: Wanted, wanted: Wanted, done: seq<Delivery>) {
    && (forall n :: n in expected <==> n in wanted && !Named(done, n))
    && (forall n :: n in expected ==> expected[n] == wanted[n])
  }

  lemma NamedNext(done: seq<Delivery>, d: Delivery, n: string)
    ensures Named(done + [d], n) <==> Named(done, n) || n == NameOf(d)
  {
    var all := done + [d];
    if Named(done, n) {
      var k :| 0 <= k < |done| && NameOf(done[k]) == n;
      assert NameOf(all[k]) == n;
    }
    if n == NameOf(d) {
      assert NameOf(all[|done|]) == n;
    }
  }

  lemma RemainingNext(expected: Wanted, wanted: Wanted, done: seq<Delivery>, d: Delivery)
    requires Remaining(expected, wanted, done) && Accepts(expected, d.record)
    ensures Remaining(expected - {NameOf(d)}, wanted, done + [d])
  {
    hide Accepts, Named;
    forall n
      ensures Named(done + [d], n) <==> Named(done, n) || n == NameOf(d)
    {
      NamedNext(done, d, n);
    }
  }

  lemma AcceptsRest(expected: Wanted, wanted: Wanted, done: seq<Delivery>, d: Delivery)
    requires Remaining(expected, wanted, done)
    ensures Accepts(expected, d.record) <==> Accepts(wanted, d.record) && !Named(done, NameOf(d))
  {
    hide SafeName, Named;
  }

  lemma OnceEachNext(done: seq<Delivery>, d: Delivery)
    requires OnceEach(done) && !Named(done, NameOf(d))
    ensures OnceEach(done + [d])
  {
  }

  lemma AllAcceptedNext(done: seq<Delivery>, d: Delivery, wanted: Wanted)
    requires AllAccepted(done, wanted) && Accepts(wanted, d.record)
    ensures AllAccepted(done + [d], wanted)
  {
    hide Accepts;
  }

  // ----- Placing one entry -----

  /** Nothing changes except the file at dest; what is new lies on the way to dest. */
  ghost predicate PlacedOnly(before: Nodes, after: Nodes, dest: Path, dir: bool) {
    && (forall p :: p in before ==>
          p in after && (after[p] == before[p] || (p == dest && !dir && before[p].FileNode? && after[p].FileNode?)))
    && (forall p :: p in after && p !in before ==> p <= dest && (after[p] == DirNode || (p == dest && !dir)))
  }

  lemma PlaceFrame(nodes: Nodes, dest: Path, e: Entry, overwrite: bool, d: Delivery)
    requires dest != []
    ensures PlacedOnly(nodes, Place(nodes, dest, e, overwrite, d).nodes, dest, e.dir)
  {
    hide MkdirSpec, ThroughLink;
    MkdirAllFrame(nodes, dest, d.reach);
    MkdirAllFrame(nodes, Parent(dest), d.reach);
    if !ThroughLink(nodes, dest) && dest in nodes {
      DestIsNoLink(nodes, dest);
    }
  }

  lemma BelowOrAt(p: Path, dest: Path)
    requires dest != []
    ensures p <= dest <==> p <= Parent(dest) || p == dest
  {
  }

  lemma PlaceDomain(nodes: Nodes, dest: Path, e: Entry, overwrite: bool, d: Delivery)
    requires dest != [] && PrefixClosed(nodes) && Place(nodes, dest, e, overwrite, d).ok
    ensures forall p :: p in Place(nodes, dest, e, overwrite, d).nodes <==> p in nodes || p <= dest
  {
    hide MkdirSpec, PrefixClosed;
    var way := if e.dir then dest else Parent(dest);
    MkdirAllFrame(nodes, way, d.reach);
    MkdirAllCreates(nodes, way, d.reach);
    var after := Place(nodes, dest, e, overwrite, d).nodes;
    forall p
      ensures p in after <==> p in nodes || p <= dest
    {
      BelowOrAt(p, dest);
    }
  }

  lemma PlaceValues(nodes: Nodes, dest: Path, e: Entry, overwrite: bool, d: Delivery)
    requires dest != [] && Place(nodes, dest, e, overwrite, d).ok
    ensures
      var after := Place(nodes, dest, e, overwrite, d).nodes;
      && (forall p :: p in after && (p != dest || e.dir) ==>
            after[p] == if p in nodes then nodes[p] else DirNode)
      && (!e.dir ==> dest in after && after[dest] == FileNode(d.record.content, FileMode(e.mode)))
  {
    hide MkdirSpec, FileMode;
    MkdirAllFrame(nodes, dest, d.reach);
    MkdirAllFrame(nodes, Parent(dest), d.reach);
  }

  lemma PlaceWorks(nodes: Nodes, dest: Path, e: Entry, overwrite: bool, d: Delivery)
    requires dest != [] && [] in nodes && d.stored && d.reach >= |dest|
    requires dest in nodes ==> if e.dir then nodes[dest].DirNode? else nodes[dest].FileNode? && overwrite
    requires NoFileOn(nodes, if e.dir then dest else Parent(dest))
    ensures Place(nodes, dest, e, overwrite, d).ok
  {
    ClearMeetsNoLink(nodes, dest, e.dir);
    hide MkdirSpec, NoFileOn, FileMode, ThroughLink;
    var way := if e.dir then dest else Parent(dest);
    MkdirAllWorks(nodes, way, d.reach);
    MkdirAllFrame(nodes, Parent(dest), d.reach);
  }

  // ----- What the accepted records must have built -----

  ghost predicate Touches(target: Path, d: Delivery, p: Path) {
    p <= Dest(target, NameOf(d))
  }

  /** p is the destination of a processed record or lies above one. */
  ghost predicate Touched(target: Path, done: seq<Delivery>, p: Path) {
    exists k :: 0 <= k < |done| && Touches(target, done[k], p)
  }

  ghost predicate PutsFile(target: Path, wanted: Wanted, d: Delivery, p: Path) {
    var n := NameOf(d);
    n in wanted && !wanted[n].dir && Dest(target, n) == p
  }

  ghost predicate FileDest(target: Path, wanted: Wanted, done: seq<Delivery>, p: Path) {
    exists k :: 0 <= k < |done| && PutsFile(target, wanted, done[k], p)
  }

  /** The paths that exist are the old ones and those on the way to a processed record. */
  ghost predicate RightPaths(before: Nodes, after: Nodes, target: Path, done: seq<Delivery>) {
    forall p :: p in after <==> p in before || Touched(target, done, p)
  }

  /** Each processed file record is there with its bytes and its masked mode. */
  ghost predicate RightFiles(after: Nodes, target: Path, wanted: Wanted, done: seq<Delivery>) {
    forall k :: 0 <= k < |done| ==> HoldsFile(after, target, wanted, done[k])
  }

  ghost predicate HoldsFile(after: Nodes, target: Path, wanted: Wanted, d: Delivery) {
    var n := NameOf(d);
    var p := Dest(target, n);
    n in wanted && !wanted[n].dir ==>
      p in after && after[p] == FileNode(d.record.content, FileMode(wanted[n].mode))
  }

  /** Everything else is as before, and directories where there was nothing. */
  ghost predicate RightRest(before: Nodes, after: Nodes, target: Path, wanted: Wanted, done: seq<Delivery>) {
    forall p :: p in after && !FileDest(target, wanted, done, p) ==>
      after[p] == if p in before then before[p] else DirNode
  }

  /** Together these three determine the disk. */
  ghost predicate Rebuilt(before: Nodes, after: Nodes, target: Path, wanted: Wanted, done: seq<Delivery>) {
    && RightPaths(before, after, target, done)
    && RightFiles(after, target, wanted, done)
    && RightRest(before, after, target, wanted, done)
  }

  lemma TouchedNext(target: Path, done: seq<Delivery>, d: Delivery, p: Path)
    ensures Touched(target, done + [d], p) <==> Touched(target, done, p) || Touches(target, d, p)
  {
    hide Touches;
    var all := done + [d];
    if Touched(target, done, p) {
      var k :| 0 <= k < |done| && Touches(target, done[k], p);
      assert Touches(target, all[k], p);
    }
    if Touches(target, d, p) {
      assert Touches(target, all[|done|], p);
    }
  }

  lemma FileDestNext(target: Path, wanted: Wanted, done: seq<Delivery>, d: Delivery, p: Path)
    ensures FileDest(target, wanted, done + [d], p) <==>
            FileDest(target, wanted, done, p) || PutsFile(target, wanted, d, p)
  {
    hide PutsFile;
    var all := done + [d];
    if FileDest(target, wanted, done, p) {
      var k :| 0 <= k < |done| && PutsFile(target, wanted, done[k], p);
      assert PutsFile(target, wanted, all[k], p);
    }
    if PutsFile(target, wanted, d, p) {
      assert PutsFile(target, wanted, all[|done|], p);
    }
  }

  lemma DestInjective(target: Path, a: string, b: string)
    requires Dest(target, a) == Dest(target, b)
    ensures a == b
  {
    assert Split(a) == Dest(target, a)[|target|..];
    assert Split(b) == Dest(target, b)[|target|..];
    SplitInjective(a, b);
  }

  /** The step as seen by the lemmas below: one more accepted record was placed. */
  ghost predicate OneMore(now: Nodes, next: Nodes, target: Path, wanted: Wanted,
                          overwrite: bool, done: seq<Delivery>, d: Delivery) {
    var n := NameOf(d);
    && n in wanted && !Named(done, n)
    && Place(now, Dest(target, n), wanted[n], overwrite, d) == Effect(next, true)
  }

  lemma PathsNext(before: Nodes, now: Nodes, next: Nodes, target: Path, wanted: Wanted,
                  overwrite: bool, done: seq<Delivery>, d: Delivery)
    requires OneMore(now, next, target, wanted, overwrite, done, d)
    requires PrefixClosed(now) && RightPaths(before, now, target, done)
    ensures RightPaths(before, next, target, done + [d])
  {
    hide Place, Touched, PrefixClosed, Dest, Named;
    var n := NameOf(d);
    PlaceDomain(now, Dest(target, n), wanted[n], overwrite, d);
    forall p
      ensures p in next <==> p in before || Touched(target, done + [d], p)
    {
      TouchedNext(target, done, d, p);
    }
  }

  lemma FilesNext(now: Nodes, next: Nodes, target: Path, wanted: Wanted,
                  overwrite: bool, done: seq<Delivery>, d: Delivery)
    requires OneMore(now, next, target, wanted, overwrite, done, d)
    requires RightFiles(now, target, wanted, done)
    ensures RightFiles(next, target, wanted, done + [d])
  {
    hide Place;
    var dest := Dest(target, NameOf(d));
    PlaceFrame(now, dest, wanted[NameOf(d)], overwrite, d);
    PlaceValues(now, dest, wanted[NameOf(d)], overwrite, d);
    forall k | 0 <= k < |done|
      ensures HoldsFile(next, target, wanted, done[k])
    {
      FileKept(now, next, target, wanted, done, d, k);
    }
    RightFilesAppend(next, target, wanted, done, d);
  }

  lemma RightFilesAppend(next: Nodes, target: Path, wanted: Wanted, done: seq<Delivery>, d: Delivery)
    requires HoldsFile(next, target, wanted, d) && RightFiles(next, target, wanted, done)
    ensures RightFiles(next, target, wanted, done + [d])
  {
    hide HoldsFile;
  }

  lemma FileKept(now: Nodes, next: Nodes, target: Path, wanted: Wanted,
                 done: seq<Delivery>, d: Delivery, k: nat)
    requires k < |done| && HoldsFile(now, target, wanted, done[k]) && !Named(done, NameOf(d))
    requires NameOf(d) in wanted
    requires PlacedOnly(now, next, Dest(target, NameOf(d)), wanted[NameOf(d)].dir)
    ensures HoldsFile(next, target, wanted, done[k])
  {
    hide FileMode, Dest;
    if Dest(target, NameOf(done[k])) == Dest(target, NameOf(d)) {
      DestInjective(target, NameOf(done[k]), NameOf(d));
    }
  }

  lemma RestNext(before: Nodes, now: Nodes, next: Nodes, target: Path, wanted: Wanted,
                 overwrite: bool, done: seq<Delivery>, d: Delivery)
    requires OneMore(now, next, target, wanted, overwrite, done, d)
    requires RightRest(before, now, target, wanted, done)
    requires forall p :: p in before ==> p in now
    ensures RightRest(before, next, target, wanted, done + [d])
  {
    hide Place, FileDest, FileMode, Dest, Named;
    var n := NameOf(d);
    PlaceValues(now, Dest(target, n), wanted[n], overwrite, d);
    forall p | p in next && !FileDest(target, wanted, done + [d], p)
      ensures next[p] == if p in before then before[p] else DirNode
    {
      FileDestNext(target, wanted, done, d, p);
    }
  }

  lemma RebuiltNext(before: Nodes, now: Nodes, next: Nodes, target: Path, wanted: Wanted,
                    overwrite: bool, done: seq<Delivery>, d: Delivery)
    requires OneMore(now, next, target, wanted, overwrite, done, d)
    requires Tree(before) && Rebuilt(before, now, target, wanted, done)
    ensures Rebuilt(before, next, target, wanted, done + [d])
  {
    hide OneMore, RightFiles, RightRest, Touched, Tree;
    RebuiltIsClosed(before, now, target, done);
    PathsNext(before, now, next, target, wanted, overwrite, done, d);
    FilesNext(now, next, target, wanted, overwrite, done, d);
    RestNext(before, now, next, target, wanted, overwrite, done, d);
  }

  lemma RebuiltIsClosed(before: Nodes, now: Nodes, target: Path, done: seq<Delivery>)
    requires Tree(before) && RightPaths(before, now, target, done)
    ensures PrefixClosed(now)
  {
  }

  lemma NothingRebuilt(before: Nodes, target: Path, wanted: Wanted)
    ensures Rebuilt(before, before, target, wanted, [])
  {
  }

  // ----- A fitting manifest keeps fitting while it is unpacked -----

  /** The probe's verdict per name. */
  ghost predicate Plan(before: Nodes, target: Path, wanted: Wanted, overwrite: bool) {
    && (forall n :: n in wanted ==> wanted[n].name == n && EntryFits(before, target, wanted[n], overwrite))
    && (forall m, n :: m in wanted && n in wanted ==> !Blocks(wanted[m], n))
  }

  lemma BelowMeansBlocks(target: Path, file: Entry, name: string)
    requires !file.dir && Dest(target, file.name) <= Dest(target, name) && file.name != name
    ensures Blocks(file, name)
  {
    var a, b := Split(file.name), Split(name);
    assert a == Dest(target, file.name)[|target|..];
    assert b == Dest(target, name)[|target|..];
    assert a <= b;
    if a == b {
      SplitInjective(file.name, name);
    }
  }

  /** No processed file lies above or at the destination of a name still to come. */
  lemma FileNotOnTheWay(target: Path, wanted: Wanted, done: seq<Delivery>, n: string, p: Path)
    requires forall m :: m in wanted ==> wanted[m].name == m && !Blocks(wanted[m], n)
    requires !Named(done, n) && p <= Dest(target, n)
    ensures !FileDest(target, wanted, done, p)
  {
    hide Dest, Blocks;
    forall k | 0 <= k < |done|
      ensures !PutsFile(target, wanted, done[k], p)
    {
      var m := NameOf(done[k]);
      if PutsFile(target, wanted, done[k], p) {
        BelowMeansBlocks(target, wanted[m], n);
      }
    }
  }

  lemma StillNoFileOn(before: Nodes, now: Nodes, target: Path, wanted: Wanted,
                      done: seq<Delivery>, n: string, p: Path)
    requires forall m :: m in wanted ==> wanted[m].name == m && !Blocks(wanted[m], n)
    requires !Named(done, n) && p <= Dest(target, n)
    requires NoFileOn(before, p) && RightRest(before, now, target, wanted, done)
    ensures NoFileOn(now, p)
  {
    hide Dest, Blocks, FileDest, Named;
    forall k | 0 <= k <= |p| && p[..k] in now
      ensures now[p[..k]].DirNode?
    {
      assert p[..k] <= Dest(target, n);
      FileNotOnTheWay(target, wanted, done, n, p[..k]);
    }
  }

  /** A processed destination at or below a file still to come would be blocked by it. */
  lemma FileNotTouched(target: Path, wanted: Wanted, done: seq<Delivery>, n: string)
    requires n in wanted && wanted[n].name == n && !wanted[n].dir && !Named(done, n)
    requires forall k :: 0 <= k < |done| ==> !Blocks(wanted[n], NameOf(done[k]))
    ensures !Touched(target, done, Dest(target, n))
  {
    hide Dest, Blocks;
    forall k | 0 <= k < |done|
      ensures !Touches(target, done[k], Dest(target, n))
    {
      if Touches(target, done[k], Dest(target, n)) {
        BelowMeansBlocks(target, wanted[n], NameOf(done[k]));
      }
    }
  }

  ghost predicate FitsAt(now: Nodes, dest: Path, dir: bool, overwrite: bool) {
    dest in now ==> if dir then now[dest].DirNode? else now[dest].FileNode? && overwrite
  }

  lemma StillFitsAt(before: Nodes, now: Nodes, target: Path, wanted: Wanted, overwrite: bool,
                    done: seq<Delivery>, n: string)
    requires Plan(before, target, wanted, overwrite) && n in wanted && !Named(done, n)
    requires AllAccepted(done, wanted)
    requires RightPaths(before, now, target, done) && RightRest(before, now, target, wanted, done)
    ensures FitsAt(now, Dest(target, n), wanted[n].dir, overwrite)
  {
    hide Dest, Blocks, FileDest, Named, Touched, SafeName, NoFileOn;
    var dest := Dest(target, n);
    FileNotOnTheWay(target, wanted, done, n, dest);
    assert EntryFits(before, target, wanted[n], overwrite);
    if !wanted[n].dir {
      forall k | 0 <= k < |done|
        ensures !Blocks(wanted[n], NameOf(done[k]))
      {
        assert Accepts(wanted, done[k].record);
      }
      FileNotTouched(target, wanted, done, n);
    }
  }

  lemma StillClear(before: Nodes, now: Nodes, target: Path, wanted: Wanted, overwrite: bool,
                   done: seq<Delivery>, n: string)
    requires Plan(before, target, wanted, overwrite) && n in wanted && !Named(done, n)
    requires RightRest(before, now, target, wanted, done)
    ensures
      var dest := Dest(target, n);
      NoFileOn(now, if wanted[n].dir then dest else Parent(dest))
  {
    hide Dest, Blocks, FileDest, Named, NoFileOn, RightRest;
    var dest := Dest(target, n);
    assert EntryFits(before, target, wanted[n], overwrite);
    StillNoFileOn(before, now, target, wanted, done, n, if wanted[n].dir then dest else Parent(dest));
  }

  /** Without faults of the file system an accepted record of a fitting manifest is placed. */
  lemma NextIsPlaced(before: Nodes, now: Nodes, target: Path, wanted: Wanted, overwrite: bool,
                     done: seq<Delivery>, d: Delivery)
    requires Tree(before) && Plan(before, target, wanted, overwrite)
    requires Rebuilt(before, now, target, wanted, done) && AllAccepted(done, wanted)
    requires NameOf(d) in wanted && !Named(done, NameOf(d))
    requires NoFault(target, d)
    ensures Place(now, Dest(target, NameOf(d)), wanted[NameOf(d)], overwrite, d).ok
  {
    hide Plan, RightPaths, RightFiles, RightRest, AllAccepted, Tree, Place, Dest, Named, NoFileOn;
    var n := NameOf(d);
    RebuiltIsClosed(before, now, target, done);
    StillFitsAt(before, now, target, wanted, overwrite, done, n);
    StillClear(before, now, target, wanted, overwrite, done, n);
    PlaceWorks(now, Dest(target, n), wanted[n], overwrite, d);
  }

  ghost predicate NoFault(target: Path, d: Delivery) {
    d.stored && d.reach >= |Dest(target, NameOf(d))|
  }

  // ----- Whole runs -----

  ghost predicate Processed(before: Nodes, s: Progress, target: Path, wanted: Wanted, done: seq<Delivery>) {
    s.Going? ==>
      && Remaining(s.expected, wanted, done)
      && AllAccepted(done, wanted)
      && OnceEach(done)
      && Rebuilt(before, s.nodes, target, wanted, done)
  }

  lemma ProcessedNext(before: Nodes, now: Nodes, expected: Wanted, target: Path, wanted: Wanted,
                      overwrite: bool, done: seq<Delivery>, d: Delivery)
    requires Tree(before) && Processed(before, Going(now, expected), target, wanted, done)
    ensures Processed(before, Unpack(now, expected, target, overwrite, d), target, wanted, done + [d])
  {
    hide Place, Remaining, AllAccepted, OnceEach, Rebuilt, Accepts, Tree, Named;
    var next := Unpack(now, expected, target, overwrite, d);
    if next.Going? {
      AcceptsRest(expected, wanted, done, d);
      AcceptedName(expected, wanted, done, d);
      RemainingNext(expected, wanted, done, d);
      AllAcceptedNext(done, d, wanted);
      OnceEachNext(done, d);
      RebuiltNext(before, now, next.nodes, target, wanted, overwrite, done, d);
    }
  }

  lemma AcceptedName(expected: Wanted, wanted: Wanted, done: seq<Delivery>, d: Delivery)
    requires Remaining(expected, wanted, done) && Accepts(expected, d.record)
    ensures NameOf(d) in wanted && NameOf(d) in expected && expected[NameOf(d)] == wanted[NameOf(d)]
  {
  }

  lemma {:induction false} RunIsProcessed(before: Nodes, target: Path, wanted: Wanted,
                                          overwrite: bool, archive: seq<Delivery>)
    requires Tree(before)
    ensures Processed(before, Run(before, wanted, target, overwrite, archive), target, wanted, archive)
  {
    hide Unpack, Remaining, Tree, Rebuilt;
    if archive == [] {
      NothingRebuilt(before, target, wanted);
      NothingUsed(wanted);
    } else {
      var init, d := archive[..|archive| - 1], archive[|archive| - 1];
      RunIsProcessed(before, target, wanted, overwrite, init);
      assert init + [d] == archive;
      match Run(before, wanted, target, overwrite, init)
      case Going(now, expected) =>
        ProcessedNext(before, now, expected, target, wanted, overwrite, init, d);
      case Stopped(_) =>
    }
  }

  lemma NothingUsed(wanted: Wanted)
    ensures Remaining(wanted, wanted, [])
  {
  }
}
