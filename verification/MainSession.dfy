/** The runs behind EngineSafety.MainSessionDownloadsNothing: on a session that was marked as a
    main sender, a run that skips every chunk and returns nil exists for every file. */
module MainSession {
  import opened Outcomes
  import opened Chunks
  import opened Engine
  import opened EngineSafety

  /** n rounds were fed and skipped, and the first k workers have exited. */
  function Skipped(c: Config, n: nat, k: nat): State {
    var all := Init(c);
    all.(feeder := if n < c.Count() then Top(n) else Closed(n),
         workers := seq(|all.workers|, w => if w < k then Exited else Waiting))
  }

  lemma Step(c: Config, run: seq<Event>, s: State, e: Event)
    requires c.Valid() && After(c, run) == Some(s) && Enabled(c, s, e)
    ensures After(c, run + [e]) == Some(Next(c, s, e))
  {
    assert (run + [e])[..|run|] == run;
  }

  /** One round: offer the walk's index, hand it to the first worker, and skip it. */
  lemma Round(c: Config, run: seq<Event>, n: nat) returns (longer: seq<Event>)
    requires c.Valid() && c.isMain && n < c.Count() && After(c, run) == Some(Skipped(c, n, 0))
    ensures After(c, longer) == Some(Skipped(c, n + 1, 0))
  {
    var s := Skipped(c, n, 0);
    var offering := s.(feeder := Offering(n));
    var next := Skipped(c, n + 1, 0);
    var received := Goto(next, 0, Received(Feed(c, n)));
    assert next.workers[0 := Received(Feed(c, n))][0 := Waiting] == next.workers;
    hide After;
    Step(c, run, s, NoUrgent);
    longer := run + [NoUrgent];
    Step(c, longer, offering, Send(0));
    longer := longer + [Send(0)];
    assert Next(c, received, Claim(0)) == next;
    Step(c, longer, received, Claim(0));
    longer := longer + [Claim(0)];
  }

  lemma {:induction false} Rounds(c: Config, n: nat) returns (run: seq<Event>)
    requires c.Valid() && c.isMain && n <= c.Count()
    ensures After(c, run) == Some(Skipped(c, n, 0))
  {
    if n == 0 {
      run := [];
      assert Init(c).workers == Skipped(c, 0, 0).workers;
    } else {
      run := Rounds(c, n - 1);
      run := Round(c, run, n - 1);
    }
  }

  lemma Exit(c: Config, k: nat)
    requires c.Valid() && c.isMain && k < |Init(c).workers|
    ensures
      var s := Skipped(c, c.Count(), k);
      Enabled(c, s, Drain(k)) && Next(c, s, Drain(k)) == Skipped(c, c.Count(), k + 1)
  {
    assert Skipped(c, c.Count(), k).workers[k := Exited] == Skipped(c, c.Count(), k + 1).workers;
  }

  lemma {:induction false} Exits(c: Config, k: nat) returns (run: seq<Event>)
    requires c.Valid() && c.isMain && k <= |Init(c).workers|
    ensures After(c, run) == Some(Skipped(c, c.Count(), k))
  {
    hide After, Enabled, Next, Skipped;
    if k == 0 {
      run := Rounds(c, c.Count());
    } else {
      run := Exits(c, k - 1);
      Exit(c, k - 1);
      Step(c, run, Skipped(c, c.Count(), k - 1), Drain(k - 1));
      run := run + [Drain(k - 1)];
    }
  }

  /** Whatever the file, some run returns nil and has downloaded nothing. */
  lemma MainSessionCanSucceed(c: Config)
    requires c.Valid() && c.isMain
    ensures exists run ::
              && After(c, run).Some? && Succeeds(After(c, run).value)
              && After(c, run).value.added == multiset{} && After(c, run).value.done == 0
              && After(c, run).value.file == Init(c).file
  {
    var run := Exits(c, |Init(c).workers|);
    assert Succeeds(After(c, run).value);
  }
}
