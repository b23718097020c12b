/** Slash-separated relative names: lexical cleaning, and what makes a name safe to extract. */
module Names {
  // ----- Components -----

  /** The parts of a name once one more character is put in front of it. */
  function Grow(c: char, parts: seq<string>): (r: seq<string>)
    requires |parts| >= 1
    ensures |r| >= 1
  {
    if c == '/' then [""] + parts else parts[0 := [c] + parts[0]]
  }

  function Split(s: string): (r: seq<string>)
    ensures |r| >= 1
  {
    if s == "" then [""] else Grow(s[0], Split(s[1..]))
  }

  function Join(cs: seq<string>): string
    requires |cs| >= 1
  {
    if |cs| == 1 then cs[0] else cs[0] + "/" + Join(cs[1..])
  }

  ghost predicate NoSlash(cs: seq<string>) {
    forall k :: 0 <= k < |cs| ==> '/' !in cs[k]
  }

  lemma {:induction false} SplitNoSlash(s: string)
    ensures NoSlash(Split(s))
  {
    if s != "" {
      SplitNoSlash(s[1..]);
    }
  }

  lemma {:induction false} SplitOfOne(s: string)
    requires '/' !in s
    ensures Split(s) == [s]
  {
    if s != "" {
      SplitOfOne(s[1..]);
      assert [s[0]] + s[1..] == s;
    }
  }

  lemma SplitOfCons(c: char, s: string)
    ensures Split([c] + s) == Grow(c, Split(s))
  {
    assert ([c] + s)[1..] == s;
  }

  lemma GrowOfAppend(c: char, r: seq<string>, t: seq<string>)
    requires |r| >= 1
    ensures Grow(c, r + t) == Grow(c, r) + t
  {
  }

  lemma {:induction false} SplitAtSlash(a: string, b: string)
    ensures Split(a + "/" + b) == Split(a) + Split(b)
  {
    hide Grow;
    if a == "" {
      assert a + "/" + b == ['/'] + b;
      SplitOfSlash(b);
    } else {
      var c, rest := a[0], a[1..];
      hide Split;
      SplitAtSlash(rest, b);
      SplitOfCons(c, rest);
      SplitOfCons(c, rest + "/" + b);
      GrowOfAppend(c, Split(rest), Split(b));
      assert a == [c] + rest;
      assert a + "/" + b == [c] + (rest + "/" + b);
    }
  }

  lemma SplitOfSlash(b: string)
    ensures Split(['/'] + b) == Split("") + Split(b)
  {
    SplitOfCons('/', b);
  }

  lemma JoinOfCons(head: string, rest: seq<string>)
    requires |rest| >= 1
    ensures Join([head] + rest) == head + "/" + Join(rest)
  {
    assert ([head] + rest)[1..] == rest;
  }

  lemma JoinOfLonger(c: char, parts: seq<string>)
    requires |parts| >= 1
    ensures Join(parts[0 := [c] + parts[0]]) == [c] + Join(parts)
  {
  }

  lemma JoinOfGrow(c: char, parts: seq<string>)
    requires |parts| >= 1
    ensures Join(Grow(c, parts)) == [c] + Join(parts)
  {
    hide Join;
    if c == '/' {
      JoinOfCons("", parts);
      assert "" + "/" + Join(parts) == ['/'] + Join(parts);
    } else {
      JoinOfLonger(c, parts);
    }
  }

  lemma {:induction false} JoinSplit(s: string)
    ensures Join(Split(s)) == s
  {
    hide Grow, Join;
    if s == "" {
      JoinOfOne([""]);
    } else {
      JoinSplit(s[1..]);
      JoinOfGrow(s[0], Split(s[1..]));
    }
  }

  lemma {:induction false} SplitJoin(cs: seq<string>)
    requires |cs| >= 1 && NoSlash(cs)
    ensures Split(Join(cs)) == cs
  {
    if |cs| == 1 {
      SplitOfOne(cs[0]);
    } else {
      SplitJoin(cs[1..]);
      SplitOfOne(cs[0]);
      SplitAtSlash(cs[0], Join(cs[1..]));
      assert cs == [cs[0]] + cs[1..];
    }
  }

  lemma SplitInjective(a: string, b: string)
    requires Split(a) == Split(b)
    ensures a == b
  {
    JoinSplit(a);
    JoinSplit(b);
  }

  // ----- path.Clean -----

  /** What one component does to the components kept so far. */
  function Push(kept: seq<string>, c: string, rooted: bool): seq<string> {
    if c == "" || c == "." then kept
    else if c == ".." then
      if |kept| > 0 && kept[|kept| - 1] != ".." then kept[..|kept| - 1]
      else if rooted then kept
      else kept + [".."]
    else kept + [c]
  }

  function PushAll(cs: seq<string>, rooted: bool): seq<string> {
    if cs == [] then [] else Push(PushAll(cs[..|cs| - 1], rooted), cs[|cs| - 1], rooted)
  }

  predicate Rooted(name: string) {
    name != "" && name[0] == '/'
  }

  /** The lexically shortest equivalent name. */
  function Clean(name: string): string {
    var kept := PushAll(Split(name), Rooted(name));
    if Rooted(name) then if kept == [] then "/" else "/" + Join(kept)
    else if kept == [] then "." else Join(kept)
  }

  /** A name without escapes: no empty, "." or ".." component. */
  predicate Proper(c: string) {
    c != "" && c != "." && c != ".."
  }

  ghost predicate AllProper(cs: seq<string>) {
    forall k :: 0 <= k < |cs| ==> Proper(cs[k])
  }

  lemma {:induction false} PushAllOfProper(cs: seq<string>, rooted: bool)
    requires AllProper(cs)
    ensures PushAll(cs, rooted) == cs
  {
    if cs != [] {
      PushAllOfProper(cs[..|cs| - 1], rooted);
      assert cs == cs[..|cs| - 1] + [cs[|cs| - 1]];
    }
  }

  /** What is kept are some ".." followed by proper components. */
  ghost predicate Kept(cs: seq<string>) {
    && (forall k :: 0 <= k < |cs| ==> cs[k] == ".." || Proper(cs[k]))
    && (forall j, k :: 0 <= j < k < |cs| && cs[k] == ".." ==> cs[j] == "..")
  }

  lemma {:induction false} PushAllKept(cs: seq<string>, rooted: bool)
    requires NoSlash(cs)
    ensures Kept(PushAll(cs, rooted)) && NoSlash(PushAll(cs, rooted))
  {
    if cs != [] {
      PushAllKept(cs[..|cs| - 1], rooted);
    }
  }

  // ----- What cleaning keeps -----

  /** Where the components lead from a directory, in a tree without symbolic links; the root is its
      own parent. */
  function Follow(base: seq<string>, cs: seq<string>): seq<string> {
    if cs == [] then base
    else
      var at, c := Follow(base, cs[..|cs| - 1]), cs[|cs| - 1];
      if c == "" || c == "." then at
      else if c == ".." then if at == [] then [] else at[..|at| - 1]
      else at + [c]
  }

  lemma FollowOne(base: seq<string>, cs: seq<string>, c: string)
    ensures c == "" || c == "." ==> Follow(base, cs + [c]) == Follow(base, cs)
    ensures
      var at := Follow(base, cs);
      c == ".." ==> Follow(base, cs + [c]) == if at == [] then [] else at[..|at| - 1]
    ensures Proper(c) ==> Follow(base, cs + [c]) == Follow(base, cs) + [c]
  {
    assert (cs + [c])[..|cs|] == cs;
  }

  lemma {:induction false} RootStays(cs: seq<string>)
    requires forall k :: 0 <= k < |cs| ==> cs[k] == ".."
    ensures Follow([], cs) == []
  {
    if cs != [] {
      RootStays(cs[..|cs| - 1]);
    }
  }

  lemma PushLeadsThere(base: seq<string>, kept: seq<string>, c: string, rooted: bool)
    requires Kept(kept) && (rooted ==> base == [])
    ensures Follow(base, Push(kept, c, rooted)) == Follow(base, kept + [c])
  {
    FollowOne(base, kept, c);
    if c == ".." && |kept| > 0 && kept[|kept| - 1] != ".." {
      var init, last := kept[..|kept| - 1], kept[|kept| - 1];
      FollowOne(base, init, last);
      assert kept == init + [last];
    } else if c == ".." && rooted {
      RootStays(kept);
    }
  }

  /** Dropping components as path.Clean does leads to the same place. */
  lemma {:induction false} PushAllLeadsThere(base: seq<string>, cs: seq<string>, rooted: bool)
    requires NoSlash(cs) && (rooted ==> base == [])
    ensures Follow(base, PushAll(cs, rooted)) == Follow(base, cs)
  {
    if cs != [] {
      var init, c := cs[..|cs| - 1], cs[|cs| - 1];
      PushAllLeadsThere(base, init, rooted);
      PushAllKept(init, rooted);
      PushLeadsThere(base, PushAll(init, rooted), c, rooted);
      FollowOne(base, PushAll(init, rooted), c);
      FollowOne(base, init, c);
      assert cs == init + [c];
    }
  }

  lemma {:induction false} FollowAfterSlash(cs: seq<string>)
    ensures Follow([], [""] + cs) == Follow([], cs)
  {
    if cs != [] {
      assert ([""] + cs)[..|cs|] == [""] + cs[..|cs| - 1];
      FollowAfterSlash(cs[..|cs| - 1]);
    }
  }

  /** A cleaned name leads to the same place as the name, from everywhere, or from the root if it
      begins there. */
  lemma CleanLeadsThere(base: seq<string>, name: string)
    requires Rooted(name) ==> base == []
    ensures Follow(base, Split(Clean(name))) == Follow(base, Split(name))
  {
    var kept := PushAll(Split(name), Rooted(name));
    SplitNoSlash(name);
    PushAllKept(Split(name), Rooted(name));
    PushAllLeadsThere(base, Split(name), Rooted(name));
    if kept == [] {
      SplitOfOne(".");
      SplitOfSlash("");
      assert Split("/") == ["", ""] by {
        assert "/" == ['/'] + "";
      }
      assert Follow([], ["", ""]) == Follow([], [""]) == [];
    } else {
      SplitJoin(kept);
      SplitOfSlash(Join(kept));
      if Rooted(name) {
        assert "/" + Join(kept) == ['/'] + Join(kept);
        FollowAfterSlash(kept);
      }
    }
  }

  // ----- Safe names -----

  predicate PlainChars(name: string) {
    forall k :: 0 <= k < |name| ==> name[k] != '\\' && name[k] != ':' && name[k] != '\0'
  }

  predicate SafeName(name: string) {
    && name != "" && name != "." && PlainChars(name) && !Rooted(name)
    && Clean(name) == name && name != ".." && !("../" <= name)
  }

  lemma ProperIsSafe(name: string)
    requires PlainChars(name) && AllProper(Split(name))
    ensures SafeName(name)
  {
    var cs := Split(name);
    assert Proper(cs[0]);
    PushAllOfProper(cs, Rooted(name));
    JoinSplit(name);
    if name == "." || name == ".." {
      SplitOfOne(name);
    }
    ParentPrefix(name);
  }

  lemma ParentPrefix(name: string)
    ensures "../" <= name ==> Split(name)[0] == ".."
  {
    if "../" <= name {
      SplitAtSlash("..", name[3..]);
      SplitOfOne("..");
      assert name == ".." + "/" + name[3..];
    }
  }

  lemma ParentFirst(cs: seq<string>)
    requires |cs| >= 1
    ensures cs[0] == ".." ==> Join(cs) == ".." || "../" <= Join(cs)
  {
  }

  lemma SafeIsProper(name: string)
    requires SafeName(name)
    ensures AllProper(Split(name))
  {
    var kept := PushAll(Split(name), false);
    SplitNoSlash(name);
    PushAllKept(Split(name), false);
    SplitJoin(kept);
    assert Split(name) == kept;
    ParentFirst(kept);
  }

  /** The check accepts exactly the relative names without backslash, colon and NUL whose
      components are all proper. */
  lemma SafeNameIsExact(name: string)
    ensures SafeName(name) <==> '\\' !in name && ':' !in name && '\0' !in name && AllProper(Split(name))
  {
    if SafeName(name) {
      SafeIsProper(name);
    }
    if PlainChars(name) && AllProper(Split(name)) {
      ProperIsSafe(name);
    }
  }

  // ----- path.Dir -----

  /** The position after the last slash. */
  function AfterSlash(name: string): (k: nat)
    ensures k <= |name|
  {
    if name == "" then 0
    else if name[|name| - 1] == '/' then |name|
    else AfterSlash(name[..|name| - 1])
  }

  function Dir(name: string): string {
    Clean(name[..AfterSlash(name)])
  }

  lemma {:induction false} AfterSlashOf(a: string, b: string)
    requires '/' !in b
    ensures AfterSlash(a + "/" + b) == |a| + 1
  {
    var s := a + "/" + b;
    if b == "" {
      assert s[|s| - 1] == '/';
    } else {
      assert s[..|s| - 1] == a + "/" + b[..|b| - 1];
      AfterSlashOf(a, b[..|b| - 1]);
    }
  }

  lemma {:induction false} AfterSlashNone(b: string)
    requires '/' !in b
    ensures AfterSlash(b) == 0
  {
    if b != "" {
      AfterSlashNone(b[..|b| - 1]);
    }
  }

  lemma {:induction false} JoinLast(cs: seq<string>)
    requires |cs| >= 2
    ensures Join(cs) == Join(cs[..|cs| - 1]) + "/" + cs[|cs| - 1]
  {
    if |cs| > 2 {
      JoinLast(cs[1..]);
      assert cs[1..][..|cs| - 2] == cs[..|cs| - 1][1..];
    } else {
      assert cs[1..] == [cs[1]] && cs[..1] == [cs[0]];
    }
  }

  lemma CleanOfTrailingSlash(cs: seq<string>)
    requires |cs| >= 1 && NoSlash(cs) && AllProper(cs)
    ensures Clean(Join(cs) + "/") == Join(cs)
  {
    var s := Join(cs) + "/";
    NotRooted(cs);
    assert Split(s) == cs + [""] by {
      SplitAtSlash(Join(cs), "");
      assert s == Join(cs) + "/" + "";
      SplitJoin(cs);
    }
    PushAllOfProper(cs, false);
    PushAllOfEmpty(cs);
  }

  lemma PushAllOfEmpty(cs: seq<string>)
    ensures PushAll(cs + [""], false) == PushAll(cs, false)
  {
    assert (cs + [""])[..|cs|] == cs;
  }

  /** The directory of a name with proper components drops the last one. */
  lemma DirOfProper(cs: seq<string>)
    requires |cs| >= 1 && NoSlash(cs) && AllProper(cs)
    ensures Dir(Join(cs)) == if |cs| == 1 then "." else Join(cs[..|cs| - 1])
  {
    hide PushAll, Join;
    if |cs| == 1 {
      JoinOfOne(cs);
      AfterSlashNone(cs[0]);
      CleanOfEmpty();
    } else {
      var init, last := cs[..|cs| - 1], cs[|cs| - 1];
      var dir := Join(init);
      JoinLast(cs);
      AfterSlashOf(dir, last);
      assert Join(cs)[..|dir| + 1] == dir + "/";
      CleanOfTrailingSlash(init);
    }
  }

  lemma JoinOfOne(cs: seq<string>)
    requires |cs| == 1
    ensures Join(cs) == cs[0]
  {
  }

  lemma CleanOfEmpty()
    ensures Clean("") == "."
  {
  }

  lemma NotRooted(cs: seq<string>)
    requires |cs| >= 1 && NoSlash(cs) && AllProper(cs)
    ensures !Rooted(Join(cs)) && !Rooted(Join(cs) + "/")
  {
  }
}
