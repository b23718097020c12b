/** The promises of directory extraction: exact success, exact result, and the frame. */
module BundleTheorems {
  import opened Bundle
  import opened BundleSafety
  import opened Correspondence
  import opened Files
  import opened Integers
  import opened Manifest
  import opened Names
  import opened Outcomes

  // ----- The manifest as a map -----

  lemma {:induction false} IndexOfIsIndex(entries: seq<Entry>)
    requires DistinctNames(entries)
    ensures Indexes(IndexOf(entries), entries)
  {
    if entries != [] {
      var init, last := entries[..|entries| - 1], entries[|entries| - 1];
      IndexOfIsIndex(init);
      LastNameIsNew(entries, IndexOf(init));
      NextIndexed(init, last, IndexOf(init));
      assert init + [last] == entries;
    }
  }

  lemma LastNameIsNew(entries: seq<Entry>, seen: Wanted)
    requires entries != [] && DistinctNames(entries) && Indexes(seen, entries[..|entries| - 1])
    ensures entries[|entries| - 1].name !in seen
  {
  }

  lemma PlanOfProbe(before: Nodes, target: Path, entries: seq<Entry>, overwrite: bool)
    requires ProbeFine(before, target, entries, overwrite)
    ensures Plan(before, target, IndexOf(entries), overwrite)
  {
    hide EntryFits, Blocks, Total, AllGood;
    var wanted := IndexOf(entries);
    IndexOfIsIndex(entries);
    forall m, n | m in wanted && n in wanted
      ensures !Blocks(wanted[m], n)
    {
      var j :| 0 <= j < |entries| && entries[j] == wanted[m];
      var k :| 0 <= k < |entries| && entries[k] == wanted[n];
      assert !Blocks(entries[j], entries[k].name);
    }
  }

  // ----- When extraction succeeds -----

  ghost predicate NoFaults(target: Path, archive: seq<Delivery>) {
    forall k :: 0 <= k < |archive| ==> NoFault(target, archive[k])
  }

  lemma {:induction false} FittingRunGoes(before: Nodes, target: Path, wanted: Wanted,
                                          overwrite: bool, archive: seq<Delivery>)
    requires Tree(before) && Plan(before, target, wanted, overwrite)
    requires AllAccepted(archive, wanted) && OnceEach(archive) && NoFaults(target, archive)
    ensures Run(before, wanted, target, overwrite, archive).Going?
  {
    hide Tree, Plan, Unpack, NoFault, Accepts;
    if archive != [] {
      var init, d := archive[..|archive| - 1], archive[|archive| - 1];
      FittingRunGoes(before, target, wanted, overwrite, init);
      RunIsProcessed(before, target, wanted, overwrite, init);
      NotNamedYet(archive);
      var s := Run(before, wanted, target, overwrite, init);
      FittingStepGoes(before, s.nodes, s.expected, target, wanted, overwrite, init, d);
    }
  }

  lemma NotNamedYet(archive: seq<Delivery>)
    requires archive != [] && OnceEach(archive)
    ensures !Named(archive[..|archive| - 1], NameOf(archive[|archive| - 1]))
  {
  }

  lemma FittingStepGoes(before: Nodes, now: Nodes, expected: Wanted, target: Path, wanted: Wanted,
                        overwrite: bool, done: seq<Delivery>, d: Delivery)
    requires Tree(before) && Plan(before, target, wanted, overwrite)
    requires Processed(before, Going(now, expected), target, wanted, done)
    requires Accepts(wanted, d.record) && !Named(done, NameOf(d)) && NoFault(target, d)
    ensures Unpack(now, expected, target, overwrite, d).Going?
  {
    hide Tree, Plan, Place, Remaining, Rebuilt, AllAccepted, OnceEach, Accepts, NoFault, Named;
    AcceptsRest(expected, wanted, done, d);
    AcceptedName(expected, wanted, done, d);
    NextIsPlaced(before, now, target, wanted, overwrite, done, d);
  }

  lemma AllUsedUp(expected: Wanted, wanted: Wanted, archive: seq<Delivery>)
    requires Remaining(expected, wanted, archive)
    ensures expected == map[] <==> forall n :: n in wanted ==> Named(archive, n)
  {
  }

  /** Success means that the archive and the manifest correspond one to one, each record
      with the name, size and kind of its entry, and that the disk is what they describe. */
  lemma SuccessIsExact(before: Nodes, target: Path, entries: seq<Entry>, overwrite: bool,
                       archive: seq<Delivery>, complete: bool, usable: bool)
    requires Tree(before)
    requires Extraction(before, target, entries, overwrite, archive, complete, usable).ok
    ensures complete && usable && ProbeFine(before, target, entries, overwrite)
    ensures Matched(archive, entries)
    ensures
      var after := Extraction(before, target, entries, overwrite, archive, complete, usable).nodes;
      Rebuilt(before, after, target, IndexOf(entries), archive)
  {
    hide Tree, AllFit, ValidManifest, Remaining, Rebuilt, AllAccepted, OnceEach, Matched;
    var wanted := IndexOf(entries);
    RunIsProcessed(before, target, wanted, overwrite, archive);
    var s := Run(before, wanted, target, overwrite, archive);
    AllUsedUp(s.expected, wanted, archive);
    OneToOneHere(archive, entries);
  }

  /** For a valid manifest the two ways to say that nothing is missing and nothing too much agree. */
  lemma OneToOneHere(archive: seq<Delivery>, entries: seq<Entry>)
    ensures ValidManifest(entries) ==> (OneToOne(archive, IndexOf(entries)) <==> Matched(archive, entries))
  {
    if ValidManifest(entries) {
      hide NoFileAbove, AllGood, OneToOne, Matched, Total, DistinctNames, Indexes;
      var wanted := IndexOf(entries);
      IndexOfIsIndex(entries);
      if OneToOne(archive, wanted) {
        OneToOneMatches(archive, entries, wanted);
      }
      if Matched(archive, entries) {
        MatchedIsOneToOne(archive, entries, wanted);
      }
    }
  }

  /** Unless the file system itself fails, extraction succeeds exactly when the probe passes
      and the whole archive corresponds one to one to the manifest. */
  lemma SucceedsExactlyWhen(before: Nodes, target: Path, entries: seq<Entry>, overwrite: bool,
                            archive: seq<Delivery>, complete: bool, usable: bool)
    requires Tree(before) && NoFaults(target, archive)
    ensures Extraction(before, target, entries, overwrite, archive, complete, usable).ok <==>
            complete && usable && ProbeFine(before, target, entries, overwrite) && Matched(archive, entries)
  {
    hide Tree, Plan, NoFaults, Remaining, Rebuilt, AllAccepted, OnceEach, Matched, AllFit, ValidManifest;
    var wanted := IndexOf(entries);
    OneToOneHere(archive, entries);
    if Extraction(before, target, entries, overwrite, archive, complete, usable).ok {
      SuccessIsExact(before, target, entries, overwrite, archive, complete, usable);
    } else if complete && usable && ProbeFine(before, target, entries, overwrite) && Matched(archive, entries) {
      PlanOfProbe(before, target, entries, overwrite);
      FittingRunGoes(before, target, wanted, overwrite, archive);
      RunIsProcessed(before, target, wanted, overwrite, archive);
      AllUsedUp(Run(before, wanted, target, overwrite, archive).expected, wanted, archive);
    }
  }

  // ----- What extraction may change, whether or not it succeeds -----

  ghost predicate OnWayTo(target: Path, wanted: Wanted, p: Path) {
    exists n :: n in wanted && p <= Dest(target, n)
  }

  ghost predicate IsFileOf(target: Path, wanted: Wanted, p: Path) {
    exists n :: n in wanted && !wanted[n].dir && Dest(target, n) == p
  }

  /** Nothing disappears; only files of the manifest are replaced, and only by files; new
      nodes are files of the manifest or directories on the way to one of its entries. */
  ghost predicate OnlyManifestChanged(before: Nodes, after: Nodes, target: Path, wanted: Wanted) {
    && (forall p :: p in before ==>
          && p in after
          && (after[p] == before[p] || (IsFileOf(target, wanted, p) && before[p].FileNode? && after[p].FileNode?)))
    && (forall p :: p in after && p !in before ==>
          OnWayTo(target, wanted, p) && (after[p] == DirNode || IsFileOf(target, wanted, p)))
  }

  lemma FrameOfPlace(before: Nodes, now: Nodes, next: Nodes, target: Path, wanted: Wanted, n: string)
    requires n in wanted && OnlyManifestChanged(before, now, target, wanted)
    requires PlacedOnly(now, next, Dest(target, n), wanted[n].dir)
    ensures OnlyManifestChanged(before, next, target, wanted)
  {
  }

  lemma FrameNext(before: Nodes, now: Nodes, expected: Wanted, target: Path, wanted: Wanted,
                  overwrite: bool, d: Delivery)
    requires OnlyManifestChanged(before, now, target, wanted)
    requires forall n :: n in expected ==> n in wanted && wanted[n] == expected[n]
    ensures OnlyManifestChanged(before, Unpack(now, expected, target, overwrite, d).nodes, target, wanted)
  {
    hide OnlyManifestChanged, Place, Dest;
    if Accepts(expected, d.record) {
      var n := NameOf(d);
      PlaceFrame(now, Dest(target, n), wanted[n], overwrite, d);
      FrameOfPlace(before, now, Unpack(now, expected, target, overwrite, d).nodes, target, wanted, n);
    }
  }

  lemma {:induction false} FrameOfRun(before: Nodes, wanted: Wanted, target: Path, overwrite: bool,
                                      archive: seq<Delivery>)
    ensures
      var s := Run(before, wanted, target, overwrite, archive);
      && OnlyManifestChanged(before, s.nodes, target, wanted)
      && (s.Going? ==> forall n :: n in s.expected ==> n in wanted && wanted[n] == s.expected[n])
  {
    if archive == [] {
    } else {
      hide OnlyManifestChanged, Place, Accepts;
      var init, d := archive[..|archive| - 1], archive[|archive| - 1];
      FrameOfRun(before, wanted, target, overwrite, init);
      match Run(before, wanted, target, overwrite, init)
      case Going(now, expected) => FrameNext(before, now, expected, target, wanted, overwrite, d);
      case Stopped(_) =>
    }
  }

  /** Whatever the archive holds and however the call ends. */
  lemma ExtractionFrame(before: Nodes, target: Path, entries: seq<Entry>, overwrite: bool,
                        archive: seq<Delivery>, complete: bool, usable: bool)
    ensures
      var after := Extraction(before, target, entries, overwrite, archive, complete, usable).nodes;
      OnlyManifestChanged(before, after, target, IndexOf(entries))
  {
    hide ProbeFine;
    FrameOfRun(before, IndexOf(entries), target, overwrite, archive);
  }

  // ----- Symbolic links -----

  ghost predicate Changed(before: Nodes, after: Nodes, p: Path) {
    p in after && (p in before ==> after[p] != before[p])
  }

  /** No changed path is a symbolic link or leads through one. */
  ghost predicate NoLinkPassed(before: Nodes, after: Nodes) {
    forall p :: Changed(before, after, p) ==> !ThroughLink(before, p)
  }

  /** Links stay where they are, so a path that met one still does. */
  lemma LinksStay(before: Nodes, now: Nodes, target: Path, wanted: Wanted, p: Path, dest: Path)
    requires OnlyManifestChanged(before, now, target, wanted) && p <= dest && ThroughLink(before, p)
    ensures ThroughLink(now, dest)
  {
    var k :| 0 <= k <= |p| && p[..k] in before && before[p[..k]].LinkNode?;
    assert dest[..k] == p[..k];
    assert now[dest[..k]].LinkNode?;
  }

  lemma LinkStep(before: Nodes, now: Nodes, next: Nodes, target: Path, wanted: Wanted, dest: Path, dir: bool)
    requires OnlyManifestChanged(before, now, target, wanted) && NoLinkPassed(before, now)
    requires PlacedOnly(now, next, dest, dir) && !ThroughLink(now, dest)
    ensures NoLinkPassed(before, next)
  {
    hide OnlyManifestChanged, ThroughLink;
    forall p | Changed(before, next, p)
      ensures !ThroughLink(before, p)
    {
      if p in now && next[p] == now[p] {
        assert Changed(before, now, p);
      } else {
        assert p <= dest;
        if ThroughLink(before, p) {
          LinksStay(before, now, target, wanted, p, dest);
        }
      }
    }
  }

  lemma LinkNext(before: Nodes, now: Nodes, expected: Wanted, target: Path, wanted: Wanted,
                 overwrite: bool, d: Delivery)
    requires OnlyManifestChanged(before, now, target, wanted) && NoLinkPassed(before, now)
    ensures NoLinkPassed(before, Unpack(now, expected, target, overwrite, d).nodes)
  {
    if Accepts(expected, d.record) {
      var n := NameOf(d);
      var dest := Dest(target, n);
      if !ThroughLink(now, dest) {
        PlaceFrame(now, dest, expected[n], overwrite, d);
        hide OnlyManifestChanged, NoLinkPassed, PlacedOnly, Place, ThroughLink, Dest, Accepts;
        LinkStep(before, now, Unpack(now, expected, target, overwrite, d).nodes, target, wanted, dest,
                 expected[n].dir);
      }
    }
  }

  lemma {:induction false} LinksOfRun(before: Nodes, wanted: Wanted, target: Path, overwrite: bool,
                                      archive: seq<Delivery>)
    ensures NoLinkPassed(before, Run(before, wanted, target, overwrite, archive).nodes)
  {
    if archive == [] {
    } else {
      hide OnlyManifestChanged, NoLinkPassed, Unpack;
      var init, d := archive[..|archive| - 1], archive[|archive| - 1];
      LinksOfRun(before, wanted, target, overwrite, init);
      FrameOfRun(before, wanted, target, overwrite, init);
      match Run(before, wanted, target, overwrite, init)
      case Going(now, expected) => LinkNext(before, now, expected, target, wanted, overwrite, d);
      case Stopped(_) =>
    }
  }

  /** Extraction never writes through a symbolic link, nor replaces one. */
  lemma NeverThroughLinks(before: Nodes, target: Path, entries: seq<Entry>, overwrite: bool,
                          archive: seq<Delivery>, complete: bool, usable: bool)
    ensures NoLinkPassed(before, Extraction(before, target, entries, overwrite, archive, complete, usable).nodes)
  {
    hide ProbeFine, ThroughLink;
    LinksOfRun(before, IndexOf(entries), target, overwrite, archive);
  }

  // ----- The target -----

  /** Every change lies at or above the target, where only directories are made, or below it
      under proper names: no name of a manifest leads out of the target. */
  lemma ChangesStayInside(before: Nodes, target: Path, entries: seq<Entry>, overwrite: bool,
                          archive: seq<Delivery>, complete: bool, usable: bool, p: Path)
    requires
      var after := Extraction(before, target, entries, overwrite, archive, complete, usable).nodes;
      p in after && (p in before ==> after[p] != before[p])
    ensures p <= target || (target <= p && AllProper(p[|target|..]))
  {
    hide Extraction, Run, NoFileAbove, Proper, SafeName;
    ChangedOnlyIfProbed(before, target, entries, overwrite, archive, complete, usable);
    ExtractionFrame(before, target, entries, overwrite, archive, complete, usable);
    var wanted := IndexOf(entries);
    assert IsFileOf(target, wanted, p) ==> OnWayTo(target, wanted, p);
    var n :| n in wanted && p <= Dest(target, n);
    IndexOfIsIndex(entries);
    var k :| 0 <= k < |entries| && entries[k] == wanted[n];
    GoodName(entries, k);
    SafeNameIsExact(n);
    PrefixOfDest(target, n, p);
  }

  lemma ChangedOnlyIfProbed(before: Nodes, target: Path, entries: seq<Entry>, overwrite: bool,
                            archive: seq<Delivery>, complete: bool, usable: bool)
    ensures Extraction(before, target, entries, overwrite, archive, complete, usable).nodes == before
            || ValidManifest(entries)
  {
    hide ValidManifest;
  }

  lemma PrefixOfDest(target: Path, n: string, p: Path)
    requires p <= Dest(target, n) && AllProper(Split(n))
    ensures p <= target || (target <= p && AllProper(p[|target|..]))
  {
  }

  // ----- Space and permissions -----

  /** There is room exactly if everything, with the extra bytes, fits what is free; a sum below
      zero counts as a number close to 2^64. */
  lemma RoomMeans(entries: seq<Entry>, extra: int64, available: Option<nat>)
    requires ValidManifest(entries)
    ensures HasRoom(entries, extra, available) <==>
            available.Some? ==>
              var sum := Total(entries) + extra as int;
              (if sum >= 0 then sum else sum + 18446744073709551616) <= available.value
  {
    hide DistinctNames, NoFileAbove, AllGood, Total;
    TotalGrows(entries, 0);
    assert Total(entries[..0]) == 0 by {
      NothingWeighsNothing();
    }
    NeededMeans(Total(entries), extra);
  }

  lemma NothingWeighsNothing()
    ensures Total([]) == 0
  {
  }

  lemma NeededMeans(total: int, extra: int64)
    requires 0 <= total <= MAX_BYTES as int
    ensures
      var sum := total + extra as int;
      sum % TWO_64 == if sum >= 0 then sum else sum + TWO_64
  {
  }

  /** An extracted file gets the permissions of its entry, except that nobody but the owner may
      write: bit by bit, from the execute bit of others to the read bit of the owner. */
  lemma ModeMeans(mode: int64)
    ensures
      var asked, given := (mode as int % 512) as bv9, FileMode(mode);
      && given & 0x12 == 0          // write for the group and for others
      && given | 0x12 == asked | 0x12
  {
  }
}
