/** Providers that stopped, and requests that were given up: nothing comes from them any more. */
module SwarmSilence {
  import opened Outcomes
  import opened Swarm
  import E = Engine

  ghost predicate Silent(s: State, id: string) {
    id !in s.nodes || !s.nodes[id].serving
  }

  lemma SilentStep(w: World, s: State, e: Event, id: string)
    requires Enabled(w, s, e) && ConfigsValid(s) && Silent(s, id) && !(e.Start? && e.id == id)
    ensures Silent(Next(w, s, e), id)
  {
    hide E.Enabled, E.Next, FetchOutcome, Faithful;
  }

  lemma StopStep(w: World, s: State, e: Event)
    requires Enabled(w, s, e) && ConfigsValid(s) && (e.Fail? || e.Leave?)
    ensures Silent(Next(w, s, e), e.id)
  {
  }

  lemma {:induction false} SilentAlways(w: World, run: seq<Event>, later: seq<Event>, id: string)
    requires After(w, run).Some? && Silent(After(w, run).value, id) && After(w, run + later).Some?
    requires forall k :: 0 <= k < |later| ==> !(later[k].Start? && later[k].id == id)
    ensures Silent(After(w, run + later).value, id)
  {
    if later == [] {
      assert run + later == run;
    } else {
      var rest := later[..|later| - 1];
      assert (run + later)[..|run + later| - 1] == run + rest;
      hide Silent, Next, Enabled;
      SilentAlways(w, run, rest, id);
      SilentStep(w, After(w, run + rest).value, later[|later| - 1], id);
    }
  }

  /** A receiver whose run failed to publish its file, or that left, grants and answers nothing
      until it starts again. */
  lemma StoppedIsSilent(w: World, run: seq<Event>, e: Event, later: seq<Event>, r: Request)
    requires (e.Fail? || e.Leave?) && r.from == Peer(e.id) && After(w, run + [e] + later).Some?
    requires forall k :: 0 <= k < |later| ==> !(later[k].Start? && later[k].id == e.id)
    ensures
      var s := After(w, run + [e] + later).value;
      !Enabled(w, s, Grant(r)) && !Enabled(w, s, Answer(r))
  {
    PrefixRuns(w, run + [e], later);
    assert (run + [e])[..|run|] == run;
    StopStep(w, After(w, run).value, e);
    SilentAlways(w, run + [e], later, e.id);
  }

  lemma {:induction false} PrefixRuns(w: World, run: seq<Event>, later: seq<Event>)
    requires After(w, run + later).Some?
    ensures After(w, run).Some?
  {
    if later == [] {
      assert run + later == run;
    } else {
      assert (run + later)[..|run + later| - 1] == run + later[..|later| - 1];
      PrefixRuns(w, run, later[..|later| - 1]);
    }
  }

  // ----- Requests -----

  lemma UngrantedStep(w: World, s: State, e: Event, g: Request)
    requires Enabled(w, s, e) && ConfigsValid(s) && g !in s.grants && e != Grant(g)
    ensures g !in Next(w, s, e).grants
  {
    hide E.Enabled, E.Next, FetchOutcome, Faithful;
  }

  lemma SpentStep(w: World, s: State, e: Event)
    requires Enabled(w, s, e) && ConfigsValid(s) && (e.Answer? || e.Forget?)
    ensures e.request !in Next(w, s, e).grants
  {
  }

  lemma {:induction false} UngrantedAlways(w: World, run: seq<Event>, later: seq<Event>, g: Request)
    requires After(w, run).Some? && g !in After(w, run).value.grants && After(w, run + later).Some?
    requires Grant(g) !in later
    ensures g !in After(w, run + later).value.grants
  {
    if later == [] {
      assert run + later == run;
    } else {
      var rest := later[..|later| - 1];
      assert (run + later)[..|run + later| - 1] == run + rest;
      hide Next, Enabled;
      UngrantedAlways(w, run, rest, g);
      UngrantedStep(w, After(w, run + rest).value, later[|later| - 1], g);
    }
  }

  /** A request is answered once at most: after its answer, or when it was given up, it would have
      to be granted again, which asks HasChunk again. */
  lemma GrantIsSpent(w: World, run: seq<Event>, e: Event, later: seq<Event>)
    requires (e.Answer? || e.Forget?) && After(w, run + [e] + later).Some?
    requires Grant(e.request) !in later
    ensures !Enabled(w, After(w, run + [e] + later).value, Answer(e.request))
  {
    PrefixRuns(w, run + [e], later);
    assert (run + [e])[..|run|] == run;
    SpentStep(w, After(w, run).value, e);
    UngrantedAlways(w, run + [e], later, e.request);
  }
}
