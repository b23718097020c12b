/** When an archive and a manifest correspond, in the terms of their records and entries. */
module Correspondence {
  import opened Bundle
  import opened BundleSafety
  import opened Manifest
  import opened Names

  /** The record carries the safe name of the entry, possibly with one slash behind it, its size,
      and its kind: a directory or a regular file, and nothing else. */
  ghost predicate Corresponds(r: Record, e: Entry) {
    && SafeName(e.name) && (r.name == e.name || r.name == e.name + "/")
    && r.size == e.size
    && r.kind == (if e.dir then Directory else Regular)
  }

  ghost predicate HasEntry(entries: seq<Entry>, r: Record) {
    exists j :: 0 <= j < |entries| && Corresponds(r, entries[j])
  }

  ghost predicate HasRecord(archive: seq<Delivery>, e: Entry) {
    exists k :: 0 <= k < |archive| && Corresponds(archive[k].record, e)
  }

  ghost predicate HasTwo(archive: seq<Delivery>, e: Entry) {
    exists k, l :: 0 <= k < l < |archive| && Corresponds(archive[k].record, e) && Corresponds(archive[l].record, e)
  }

  /** Every record belongs to an entry, every entry has a record, and no entry has two. */
  ghost predicate Matched(archive: seq<Delivery>, entries: seq<Entry>) {
    && (forall k :: 0 <= k < |archive| ==> HasEntry(entries, archive[k].record))
    && (forall j :: 0 <= j < |entries| ==> HasRecord(archive, entries[j]) && !HasTwo(archive, entries[j]))
  }

  // ----- Names with a slash behind them -----

  lemma SlashEndIsImproper(name: string)
    requires name != "" && name[|name| - 1] == '/'
    ensures !AllProper(Split(name))
  {
    var init := name[..|name| - 1];
    SplitAtSlash(init, "");
    assert name == init + "/" + "";
    var cs := Split(name);
    assert !Proper(cs[|cs| - 1]);
  }

  lemma SafeEnd(name: string)
    requires SafeName(name)
    ensures name != "" && name[|name| - 1] != '/'
  {
    SafeIsProper(name);
    if name[|name| - 1] == '/' {
      SlashEndIsImproper(name);
    }
  }

  lemma TrimMeans(name: string, safe: string)
    requires SafeName(safe)
    ensures Trim(name) == safe <==> name == safe || name == safe + "/"
  {
    hide SafeName;
    SafeEnd(safe);
    if name != "" && name[|name| - 1] == '/' {
      assert name == name[..|name| - 1] + "/";
    }
  }

  // ----- One record -----

  lemma BelongsExactly(entries: seq<Entry>, wanted: Wanted, r: Record, j: nat)
    requires Indexes(wanted, entries) && j < |entries| && SafeName(entries[j].name)
    ensures Accepts(wanted, r) && Trim(r.name) == entries[j].name <==> Corresponds(r, entries[j])
  {
    hide SafeName, Trim;
    TrimMeans(r.name, entries[j].name);
    assert wanted[entries[j].name] == entries[j];
  }

  // ----- Whole archives -----

  lemma RecordsMatch(entries: seq<Entry>, wanted: Wanted, r: Record)
    requires Indexes(wanted, entries) && AllGood(entries) && Accepts(wanted, r)
    ensures HasEntry(entries, r)
  {
    hide SafeName, Corresponds;
    var j :| 0 <= j < |entries| && entries[j] == wanted[Trim(r.name)];
    assert GoodEntry(entries[j]);
    BelongsExactly(entries, wanted, r, j);
  }

  lemma MatchesByName(entries: seq<Entry>, wanted: Wanted, d: Delivery, j: nat)
    requires Indexes(wanted, entries) && AllGood(entries) && j < |entries|
    ensures Accepts(wanted, d.record) && NameOf(d) == entries[j].name <==> Corresponds(d.record, entries[j])
  {
    hide SafeName, Corresponds, Accepts;
    assert GoodEntry(entries[j]);
    BelongsExactly(entries, wanted, d.record, j);
  }

  lemma EntryMatches(archive: seq<Delivery>, entries: seq<Entry>, wanted: Wanted, j: nat)
    requires Indexes(wanted, entries) && AllGood(entries) && j < |entries|
    requires OneToOne(archive, wanted)
    ensures HasRecord(archive, entries[j]) && !HasTwo(archive, entries[j])
  {
    hide AllGood, Corresponds, Accepts;
    assert Named(archive, entries[j].name);
    var k :| 0 <= k < |archive| && NameOf(archive[k]) == entries[j].name;
    MatchesByName(entries, wanted, archive[k], j);
    forall k, l | 0 <= k < l < |archive|
      ensures !(Corresponds(archive[k].record, entries[j]) && Corresponds(archive[l].record, entries[j]))
    {
      MatchesByName(entries, wanted, archive[k], j);
      MatchesByName(entries, wanted, archive[l], j);
    }
  }

  lemma OneToOneMatches(archive: seq<Delivery>, entries: seq<Entry>, wanted: Wanted)
    requires Indexes(wanted, entries) && AllGood(entries) && OneToOne(archive, wanted)
    ensures Matched(archive, entries)
  {
    hide Indexes, AllGood, OneToOne, HasEntry, HasRecord, HasTwo, Accepts;
    assert AllAccepted(archive, wanted) by {
      AllAreAccepted(archive, wanted);
    }
    forall k | 0 <= k < |archive|
      ensures HasEntry(entries, archive[k].record)
    {
      RecordsMatch(entries, wanted, archive[k].record);
    }
    forall j | 0 <= j < |entries|
      ensures HasRecord(archive, entries[j]) && !HasTwo(archive, entries[j])
    {
      EntryMatches(archive, entries, wanted, j);
    }
  }

  lemma AllAreAccepted(archive: seq<Delivery>, wanted: Wanted)
    requires OneToOne(archive, wanted)
    ensures AllAccepted(archive, wanted)
  {
  }

  lemma RecordIsAccepted(entries: seq<Entry>, wanted: Wanted, d: Delivery) returns (j: nat)
    requires Indexes(wanted, entries) && AllGood(entries) && HasEntry(entries, d.record)
    ensures j < |entries| && Corresponds(d.record, entries[j])
    ensures Accepts(wanted, d.record) && NameOf(d) == entries[j].name
  {
    hide Corresponds, Accepts;
    j :| 0 <= j < |entries| && Corresponds(d.record, entries[j]);
    MatchesByName(entries, wanted, d, j);
  }

  lemma NamesDiffer(archive: seq<Delivery>, entries: seq<Entry>, wanted: Wanted, k: nat, l: nat)
    requires Indexes(wanted, entries) && AllGood(entries) && DistinctNames(entries) && Matched(archive, entries)
    requires k < l < |archive|
    ensures NameOf(archive[k]) != NameOf(archive[l])
  {
    hide AllGood, Indexes, Corresponds, Accepts, HasEntry, HasRecord;
    var i := RecordIsAccepted(entries, wanted, archive[k]);
    var j := RecordIsAccepted(entries, wanted, archive[l]);
    assert !HasTwo(archive, entries[j]);
    assert i != j;
  }

  lemma EntryIsNamed(archive: seq<Delivery>, entries: seq<Entry>, wanted: Wanted, n: string)
    requires Indexes(wanted, entries) && AllGood(entries) && Matched(archive, entries) && n in wanted
    ensures Named(archive, n)
  {
    hide AllGood, Corresponds, Accepts, HasEntry, HasTwo;
    var j :| 0 <= j < |entries| && entries[j] == wanted[n];
    assert HasRecord(archive, entries[j]);
    var k :| 0 <= k < |archive| && Corresponds(archive[k].record, entries[j]);
    MatchesByName(entries, wanted, archive[k], j);
    assert NameOf(archive[k]) == n;
  }

  lemma MatchedIsOneToOne(archive: seq<Delivery>, entries: seq<Entry>, wanted: Wanted)
    requires Indexes(wanted, entries) && AllGood(entries) && DistinctNames(entries) && Matched(archive, entries)
    ensures OneToOne(archive, wanted)
  {
    hide AllGood, Indexes, Corresponds, Accepts, HasEntry, HasRecord, HasTwo, Named, DistinctNames;
    forall k | 0 <= k < |archive|
      ensures Accepts(wanted, archive[k].record)
    {
      var _ := RecordIsAccepted(entries, wanted, archive[k]);
    }
    forall k, l | 0 <= k < l < |archive|
      ensures NameOf(archive[k]) != NameOf(archive[l])
    {
      NamesDiffer(archive, entries, wanted, k, l);
    }
    forall n | n in wanted
      ensures Named(archive, n)
    {
      EntryIsNamed(archive, entries, wanted, n);
    }
  }
}
