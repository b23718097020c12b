/** The manifest of a distribution: which lists of entries are accepted. */
module Manifest {
  import opened Integers
  import opened Names

  const MAX_ENTRIES: nat := 10000
  const MAX_BYTES: int64 := 0x4_0000_0000_0000

  datatype Entry = Entry(name: string, size: int64, dir: bool, mode: int64)

  // ----- What a manifest must be -----

  predicate GoodEntry(e: Entry) {
    SafeName(e.name) && 0 <= e.size <= MAX_BYTES && (e.dir ==> e.size == 0)
  }

  ghost predicate AllGood(entries: seq<Entry>) {
    forall k :: 0 <= k < |entries| ==> GoodEntry(entries[k])
  }

  ghost predicate DistinctNames(entries: seq<Entry>) {
    forall j, k :: 0 <= j < k < |entries| ==> entries[j].name != entries[k].name
  }

  /** File f would have to be a directory for name to exist below it. */
  ghost predicate Blocks(f: Entry, name: string) {
    !f.dir && Split(f.name) < Split(name)
  }

  ghost predicate NoFileAbove(entries: seq<Entry>) {
    forall j, k :: 0 <= j < |entries| && 0 <= k < |entries| ==> !Blocks(entries[j], entries[k].name)
  }

  function Total(entries: seq<Entry>): int {
    if entries == [] then 0
    else Total(entries[..|entries| - 1]) + entries[|entries| - 1].size as int
  }

  ghost predicate ValidManifest(entries: seq<Entry>) {
    && 1 <= |entries| <= MAX_ENTRIES
    && AllGood(entries)
    && DistinctNames(entries)
    && Total(entries) <= MAX_BYTES as int
    && NoFileAbove(entries)
  }

  // ----- The running total -----

  lemma TotalOfNext(entries: seq<Entry>, k: nat)
    requires k < |entries|
    ensures Total(entries[..k + 1]) == Total(entries[..k]) + entries[k].size as int
  {
    assert entries[..k + 1][..k] == entries[..k];
  }

  lemma {:induction false} TotalGrows(entries: seq<Entry>, k: nat)
    requires k <= |entries| && AllGood(entries)
    ensures Total(entries[..k]) <= Total(entries)
    decreases |entries| - k
  {
    if k == |entries| {
      assert entries[..k] == entries;
    } else {
      TotalOfNext(entries, k);
      assert GoodEntry(entries[k]);
      TotalGrows(entries, k + 1);
    }
  }

  lemma OverTotal(entries: seq<Entry>, k: nat)
    requires k <= |entries| && Total(entries[..k]) > MAX_BYTES as int
    ensures !ValidManifest(entries)
  {
    if AllGood(entries) {
      TotalGrows(entries, k);
    }
  }

  // ----- The names above a name -----

  lemma AncestorIsNotDot(cs: seq<string>, k: nat)
    requires 1 <= k <= |cs| && NoSlash(cs) && AllProper(cs)
    ensures Join(cs[..k]) != "."
  {
  }

  lemma AncestorIsPrefix(cs: seq<string>, k: nat, name: string)
    requires 1 <= k < |cs| && NoSlash(cs)
    ensures name == Join(cs[..k]) <==> Split(name) == cs[..k]
  {
    SplitJoin(cs[..k]);
    JoinSplit(name);
  }

  /** The map filled by the first pass: every entry under its own name. */
  ghost predicate Indexes(seen: map<string, Entry>, entries: seq<Entry>) {
    && (forall k :: 0 <= k < |entries| ==> entries[k].name in seen && seen[entries[k].name] == entries[k])
    && (forall n :: n in seen ==> seen[n].name == n && seen[n] in entries)
  }

  ghost predicate BlockedIn(seen: map<string, Entry>, name: string) {
    exists n :: n in seen && Blocks(seen[n], name)
  }

  /** Every file blocking the name from depth k up was looked at. */
  ghost predicate ClearFrom(seen: map<string, Entry>, name: string, k: nat) {
    forall n :: n in seen && Blocks(seen[n], name) ==> |Split(n)| <= k
  }

  lemma ClearAtStart(seen: map<string, Entry>, name: string)
    requires forall n :: n in seen ==> seen[n].name == n
    ensures ClearFrom(seen, name, |Split(name)| - 1)
  {
  }

  lemma ClearAtEnd(seen: map<string, Entry>, name: string)
    requires forall n :: n in seen ==> seen[n].name == n
    requires ClearFrom(seen, name, 0)
    ensures !BlockedIn(seen, name)
  {
  }

  lemma ClearNext(seen: map<string, Entry>, name: string, k: nat)
    requires forall n :: n in seen ==> seen[n].name == n
    requires 1 <= k < |Split(name)| && ClearFrom(seen, name, k)
    requires var parent := Join(Split(name)[..k]); parent !in seen || seen[parent].dir
    ensures ClearFrom(seen, name, k - 1)
  {
    SplitNoSlash(name);
    forall n | n in seen && Blocks(seen[n], name)
      ensures |Split(n)| <= k - 1
    {
      AncestorIsPrefix(Split(name), k, n);
    }
  }

  lemma BlockedAt(seen: map<string, Entry>, name: string, k: nat)
    requires forall n :: n in seen ==> seen[n].name == n
    requires 1 <= k < |Split(name)|
    requires var parent := Join(Split(name)[..k]); parent in seen && !seen[parent].dir
    ensures BlockedIn(seen, name)
  {
    SplitNoSlash(name);
    var parent := Join(Split(name)[..k]);
    AncestorIsPrefix(Split(name), k, parent);
    assert Blocks(seen[parent], name);
  }

  /** The name k components deep on the way to a name. */
  function Above(name: string, k: nat): string
    requires k <= |Split(name)|
  {
    if k == 0 then "." else Join(Split(name)[..k])
  }

  lemma SafeParts(name: string, k: nat)
    requires SafeName(name) && k <= |Split(name)|
    ensures NoSlash(Split(name)[..k]) && AllProper(Split(name)[..k])
  {
    hide Split, SafeName, Proper;
    SafeNameIsExact(name);
    SplitNoSlash(name);
  }

  lemma AboveIsNotDot(name: string, k: nat)
    requires SafeName(name) && 1 <= k <= |Split(name)|
    ensures Above(name, k) != "."
  {
    hide Split, SafeName, Proper, AllProper, NoSlash, Join;
    SafeParts(name, k);
    var cs := Split(name)[..k];
    AncestorIsNotDot(cs, k);
    assert cs[..k] == cs;
  }

  lemma DirOfAbove(name: string, k: nat)
    requires SafeName(name) && 1 <= k <= |Split(name)|
    ensures Dir(Above(name, k)) == Above(name, k - 1)
  {
    hide Split, SafeName, Proper, AllProper, NoSlash, Join, Dir;
    SafeParts(name, k);
    var cs := Split(name);
    DirOfProper(cs[..k]);
    assert cs[..k][..k - 1] == cs[..k - 1];
  }

  lemma AboveAll(name: string)
    ensures Above(name, |Split(name)|) == name
  {
    hide Split, Join;
    JoinSplit(name);
    assert Split(name)[..|Split(name)|] == Split(name);
  }

  /** Walks from a name to the top and stops at the first file on the way. */
  method ParentsAreDirs(seen: map<string, Entry>, name: string) returns (ok: bool)
    requires SafeName(name)
    requires forall n :: n in seen ==> seen[n].name == n
    ensures ok <==> !BlockedIn(seen, name)
  {
    hide Split, SafeName, Dir, Blocks, BlockedIn, ClearFrom;
    ghost var k := |Split(name)| - 1;
    AboveAll(name);
    DirOfAbove(name, |Split(name)|);
    ClearAtStart(seen, name);
    var parent := Dir(name);
    while parent != "."
      invariant 0 <= k < |Split(name)|
      invariant parent == Above(name, k) && ClearFrom(seen, name, k)
      decreases k
    {
      if parent in seen && !seen[parent].dir {
        BlockedAt(seen, name, k);
        return false;
      }
      ClearNext(seen, name, k);
      DirOfAbove(name, k);
      parent := Dir(parent);
      k := k - 1;
    }
    if k > 0 {
      AboveIsNotDot(name, k);
    }
    ClearAtEnd(seen, name);
    ok := true;
  }

  // ----- The check -----

  lemma DuplicateName(entries: seq<Entry>, k: nat, seen: map<string, Entry>)
    requires k < |entries| && Indexes(seen, entries[..k]) && entries[k].name in seen
    ensures !DistinctNames(entries)
  {
  }

  lemma NextGood(done: seq<Entry>, e: Entry)
    requires AllGood(done) && GoodEntry(e)
    ensures AllGood(done + [e])
  {
    hide GoodEntry;
  }

  lemma NextDistinct(done: seq<Entry>, e: Entry, seen: map<string, Entry>)
    requires DistinctNames(done) && Indexes(seen, done) && e.name !in seen
    ensures DistinctNames(done + [e])
  {
  }

  lemma NextIndexed(done: seq<Entry>, e: Entry, seen: map<string, Entry>)
    requires Indexes(seen, done) && e.name !in seen
    ensures Indexes(seen[e.name := e], done + [e])
  {
  }

  lemma BlockedMeansInvalid(entries: seq<Entry>, seen: map<string, Entry>, k: nat)
    requires Indexes(seen, entries) && k < |entries|
    requires BlockedIn(seen, entries[k].name)
    ensures !NoFileAbove(entries)
  {
  }

  lemma NotBlockedMeansFine(entries: seq<Entry>, seen: map<string, Entry>)
    requires Indexes(seen, entries)
    requires forall k :: 0 <= k < |entries| ==> !BlockedIn(seen, entries[k].name)
    ensures NoFileAbove(entries)
  {
  }

  /** Accepts exactly the valid manifests; the 64-bit running total never overflows. */
  method ValidateEntries(entries: seq<Entry>) returns (ok: bool)
    ensures ok <==> ValidManifest(entries)
  {
    hide SafeName, AllGood, DistinctNames, NoFileAbove, Indexes, BlockedIn, Total;
    if |entries| == 0 || |entries| > MAX_ENTRIES {
      return false;
    }
    var seen: map<string, Entry> := map[];
    var total: int64 := 0;
    NothingSeen();
    for i := 0 to |entries|
      invariant AllGood(entries[..i]) && DistinctNames(entries[..i]) && Indexes(seen, entries[..i])
      invariant total as int == Total(entries[..i]) && 0 <= total <= MAX_BYTES
    {
      var e := entries[i];
      ghost var done := entries[..i];
      if e.name in seen {
        DuplicateName(entries, i, seen);
      }
      if !SafeName(e.name) || e.size < 0 || e.size > MAX_BYTES || e.name in seen || (e.dir && e.size != 0) {
        BadEntry(entries, i);
        return false;
      }
      total := total + e.size;
      TotalOfNext(entries, i);
      if total > MAX_BYTES {
        OverTotal(entries, i + 1);
        return false;
      }
      NextGood(done, e);
      NextDistinct(done, e, seen);
      NextIndexed(done, e, seen);
      assert entries[..i + 1] == done + [e];
      seen := seen[e.name := e];
    }
    assert entries[..|entries|] == entries;
    IndexedByName(seen, entries);
    for i := 0 to |entries|
      invariant forall k :: 0 <= k < i ==> !BlockedIn(seen, entries[k].name)
    {
      GoodName(entries, i);
      var fine := ParentsAreDirs(seen, entries[i].name);
      if !fine {
        BlockedMeansInvalid(entries, seen, i);
        return false;
      }
    }
    NotBlockedMeansFine(entries, seen);
    ok := true;
  }

  lemma NothingSeen()
    ensures AllGood([]) && DistinctNames([]) && Indexes(map[], []) && Total([]) == 0
  {
  }

  lemma BadEntry(entries: seq<Entry>, k: nat)
    requires k < |entries|
    ensures !GoodEntry(entries[k]) ==> !AllGood(entries)
  {
  }

  lemma IndexedByName(seen: map<string, Entry>, entries: seq<Entry>)
    requires Indexes(seen, entries)
    ensures forall n :: n in seen ==> seen[n].name == n
  {
  }

  lemma GoodName(entries: seq<Entry>, k: nat)
    requires AllGood(entries) && k < |entries|
    ensures SafeName(entries[k].name)
  {
    assert GoodEntry(entries[k]);
  }
}
