/** A recorded tool turn replayed: the results the replay tools and policy give are the recorded ones,
    byte for byte, in sequential mode and under any dispatch order. */
module ReplayTurn {

  import opened Decimal
  import opened Chat
  import opened Spill
  import opened Record
  import opened ReplayClient
  import opened Worlds

  // ----- One result -----

  /** A result a tool or the Runner itself produced, without denial or rewrite. */
  predicate Produced(res: ToolRes, accepts: bool) {
    && !res.denied && res.denyReason == "" && res.dispatchedArgs == None
    && if res.isErr
       then ERROR_PREFIX <= res.result && res.content == [] && res.degraded == 0 && res.limit == NO_LIMIT
       else res.result == BlocksText(res.content) && DegradedCount(res.content, accepts) == 0
            && (res.content == [] ==> res.degraded == 0)
  }

  /** The record drops the content of a result that is exactly one text block. */
  predicate ContentDropped(res: ToolRes) {
    !res.isErr && res.degraded == 0 && |res.content| == 1 && res.content[0].kind.TextBlock?
  }

  lemma OneTextBlock(s: string)
    ensures BlocksText([Text(s)]) == s
  {
    assert [Text(s)][1..] == [];
    assert s + "" == s;
  }

  lemma OneTextIs(b: Block)
    requires b.kind.TextBlock?
    ensures BlocksText([b]) == b.text
  {
    assert [b][1..] == [];
    assert b.text + "" == b.text;
  }

  lemma PlacedAgain(content: seq<Block>, accepts: bool)
    requires DegradedCount(content, accepts) == 0
    ensures Placed(content, accepts) == ToolRes(BlocksText(content), content, 0, NO_LIMIT, false, false, "", None)
  {
    hide BlocksText;
    NothingDegraded(content, accepts);
    assert Degraded(content, accepts) == content;
  }

  /** Serving a recorded result gives back the same record always, and the same message exactly unless the
      record dropped a lone text block that carried more than its text. */
  lemma ServedReproduces(call: ToolCall, res: ToolRes, accepts: bool)
    requires Produced(res, accepts)
    ensures var back := ServedRes(RecordOf(call, res), accepts);
            && RecordOf(call, back) == RecordOf(call, res)
            && (ResMessage(back, call.id) == ResMessage(res, call.id) <==>
                  (ContentDropped(res) ==> res.content[0] == Text(res.content[0].text)))
  {
    var rec := RecordOf(call, res);
    if res.isErr {
      ErrorReproduces(call, res, accepts);
    } else if ContentDropped(res) {
      assert res.content == [res.content[0]];
      OneTextIs(res.content[0]);
      TextServed(rec, accepts);
      assert ResMessage(res, call.id).content[0] == res.content[0];
      assert ResMessage(ServedRes(rec, accepts), call.id).content[0] == Text(rec.result);
    } else if res.content == [] {
      TextServed(rec, accepts);
    } else {
      hide BlocksText;
      PlacedAgain(res.content, accepts);
    }
  }

  /** A tool that returns one text block with a url: the replayed message has the text alone. */
  lemma LoneBlockLosesItsUrl(call: ToolCall, accepts: bool)
    ensures var res := RunRes(call.name, Returned([Text("x").(url := "u")], NoSink), accepts, 0);
            var back := ServedRes(RecordOf(call, res), accepts);
            && RecordOf(call, back) == RecordOf(call, res)
            && ResMessage(res, call.id).content == [Text("x").(url := "u")]
            && ResMessage(back, call.id).content == [Text("x")]
  {
    var b := Text("x").(url := "u");
    RunResIsProduced(call.name, Returned([b], NoSink), accepts, 0);
    var res := RunRes(call.name, Returned([b], NoSink), accepts, 0);
    NothingDegraded([b], accepts);
    PlacedAgain([b], accepts);
    ServedReproduces(call, res, accepts);
    OneTextIs(b);
    TextServed(RecordOf(call, res), accepts);
  }

  lemma TextServed(rec: RunRecord, accepts: bool)
    requires !rec.isError && rec.content == []
    ensures ServedRes(rec, accepts) ==
            ToolRes(rec.result, [Text(rec.result)], rec.degraded, rec.limit, false, false, "", None)
  {
    OneTextBlock(rec.result);
    hide BlocksText;
    NothingDegraded([Text(rec.result)], accepts);
    PlacedAgain([Text(rec.result)], accepts);
  }

  lemma ErrorReproduces(call: ToolCall, res: ToolRes, accepts: bool)
    requires Produced(res, accepts) && res.isErr
    ensures ServedRes(RecordOf(call, res), accepts) == res
  {
    assert ERROR_PREFIX + res.result[|ERROR_PREFIX|..] == res.result;
  }

  lemma RunResIsProduced(name: string, o: ToolOutcome, accepts: bool, max: int)
    ensures Produced(RunRes(name, o, accepts, max), accepts)
    ensures o.Returned? && PlainBlocks(o.blocks) ==> PlainBlocks(RunRes(name, o, accepts, max).content)
  {
    match o
    case Returned(blocks, sink) =>
      PlacingIsIdempotent(blocks, accepts);
      LimitedIsProduced(Placed(blocks, accepts), accepts, max, sink);
    case Errored(_) =>
    case Panicked(_) =>
    case TimedOut(_) =>
  }

  lemma LimitedIsProduced(res: ToolRes, accepts: bool, max: int, sink: SinkAnswer)
    requires Produced(res, accepts) && !res.isErr
    ensures Produced(Limited(res, max, sink), accepts) && !Limited(res, max, sink).isErr
    ensures PlainBlocks(res.content) ==> PlainBlocks(Limited(res, max, sink).content)
  {
    hide SpillStandIn, TruncatedText, ValidSpillRef, BlocksText, BlocksSize, PlainText;
    var out := Limited(res, max, sink);
    if max > 0 && BlocksSize(res.content) > max {
      OneTextBlock(out.result);
      NothingDegraded([Text(out.result)], accepts);
    }
  }

  // ----- The live turn -----

  predicate LiveDecision(tools: seq<string>, call: ToolCall, d: Decision) {
    if call.name !in tools then d == Go(call.args, false)
    else if d.Go? then d.rewritten == (d.args != call.args)
    else d.res == DeniedRes(call.name, d.res.denyReason)
  }

  /** Dispatched arguments as the record shows them: they differ from the model's own, except that an empty rewrite
      of "null" reads "null" as well. */
  predicate Redirected(call: ToolCall, args: Option<string>) {
    args.Some? ==> args.value != "" && (args.value != call.args || call.args == "null")
  }

  /** What the recorded run may have fed back for a call. */
  predicate LiveResult(tools: seq<string>, call: ToolCall, res: ToolRes, accepts: bool) {
    if call.name !in tools then res == UnknownTool(call.name)
    else
      || res == DeniedRes(call.name, res.denyReason)
      || (&& Produced(res.(dispatchedArgs := None), accepts) && PlainBlocks(res.content)
          && Redirected(call, res.dispatchedArgs))
  }

  lemma {:induction false} LiveDecisions(w: World, calls: seq<ToolCall>)
    requires Undisturbed(w)
    ensures var (ds, w1) := AuthorizeCalls(w, calls);
            && Undisturbed(w1) && w1.Live? && w1.tools == w.tools
            && forall i :: 0 <= i < |calls| ==> LiveDecision(w.tools, calls[i], ds[i])
  {
    hide PlainBlocks;
    if calls != [] {
      LiveDecisions(w, calls[..|calls| - 1]);
    }
  }

  lemma RunCallLive(w: World, call: ToolCall, d: Decision, accepts: bool, max: int)
    requires Undisturbed(w) && w.Live? && LiveDecision(w.tools, call, d) && d.Go? && call.id != ""
    ensures var (res, w1) := RunCall(w, call, d, accepts, max);
            Undisturbed(w1) && w1.Live? && w1.tools == w.tools && LiveResult(w.tools, call, res, accepts)
  {
    hide PlainBlocks, RunRes, Produced;
    if call.name in w.tools {
      var o := if w.outcomes == [] then Errored("") else w.outcomes[0];
      RunResIsProduced(call.name, o, accepts, max);
      ErrorsArePlain(call.name, o, accepts, max);
    }
  }

  lemma ErrorsArePlain(name: string, o: ToolOutcome, accepts: bool, max: int)
    ensures !o.Returned? ==> PlainBlocks(RunRes(name, o, accepts, max).content)
    ensures RunRes(name, o, accepts, max).dispatchedArgs == None
  {
    RunResIsProduced(name, o, accepts, max);
  }

  lemma {:induction false} LiveInOrder(w: World, calls: seq<ToolCall>, ds: seq<Decision>, accepts: bool, max: int,
                                       n: nat)
    requires Undisturbed(w) && w.Live? && n <= |calls| == |ds| && (forall c | c in calls :: c.id != "")
    requires forall i :: 0 <= i < |calls| ==> LiveDecision(w.tools, calls[i], ds[i])
    ensures var (rs, stopped, w1) := Sequential(w, calls, ds, accepts, max, n);
            && !stopped && Undisturbed(w1) && w1.Live? && w1.tools == w.tools
            && forall i :: 0 <= i < n ==> LiveResult(w.tools, calls[i], rs[i], accepts)
  {
    hide Steady, Undisturbed, LiveResult, RunCall;
    if n > 0 {
      LiveInOrder(w, calls, ds, accepts, max, n - 1);
      var (rs, stopped, w1) := Sequential(w, calls, ds, accepts, max, n - 1);
      NeverCancelled(w1);
      if ds[n - 1].Go? {
        RunCallLive(w1, calls[n - 1], ds[n - 1], accepts, max);
      } else {
        DeniedIsLive(w.tools, calls[n - 1], ds[n - 1], accepts);
      }
    }
  }

  lemma DeniedIsLive(tools: seq<string>, call: ToolCall, d: Decision, accepts: bool)
    requires LiveDecision(tools, call, d) && d.Resolved?
    ensures LiveResult(tools, call, d.res, accepts)
  {
    hide Produced, PlainBlocks;
  }

  lemma {:induction false} LiveAtOnce(w: World, calls: seq<ToolCall>, ds: seq<Decision>, accepts: bool, max: int,
                                      n: nat)
    requires Undisturbed(w) && w.Live? && n <= |calls| == |ds| && (forall c | c in calls :: c.id != "")
    requires forall i :: 0 <= i < |calls| ==> LiveDecision(w.tools, calls[i], ds[i])
    ensures var (rs, w1) := Parallel(w, calls, ds, accepts, max, Identity(|calls|)[..n]);
            && Undisturbed(w1) && w1.Live? && w1.tools == w.tools
            && forall i :: 0 <= i < n ==> LiveResult(w.tools, calls[i], rs[i], accepts)
  {
    hide Steady, Undisturbed, LiveResult, RunCall;
    if n > 0 {
      LiveAtOnce(w, calls, ds, accepts, max, n - 1);
      var order := Identity(|calls|)[..n];
      assert order[..n - 1] == Identity(|calls|)[..n - 1];
      var (rs, w1) := Parallel(w, calls, ds, accepts, max, order[..n - 1]);
      if ds[n - 1].Go? {
        RunCallLive(w1, calls[n - 1], ds[n - 1], accepts, max);
      } else {
        DeniedIsLive(w.tools, calls[n - 1], ds[n - 1], accepts);
      }
    }
  }

  /** An undisturbed live turn runs every call. */
  lemma LiveTurn(w: World, calls: seq<ToolCall>, parallel: bool, accepts: bool, max: int)
    requires Undisturbed(w) && (forall c | c in calls :: c.id != "")
    ensures var (rs, w1) := ExecuteTools(w, calls, parallel, accepts, max);
            && |rs| == |calls| && Undisturbed(w1) && w1.Live? && w1.tools == w.tools
            && forall i :: 0 <= i < |calls| ==> LiveResult(w.tools, calls[i], rs[i], accepts)
  {
    hide Steady, Undisturbed, LiveResult, AuthorizeCalls, Sequential, Parallel, LiveDecision;
    LiveDecisions(w, calls);
    var (ds, w1) := AuthorizeCalls(w, calls);
    LiveInOrder(w1, calls, ds, accepts, max, |calls|);
    LiveAtOnce(w1, calls, ds, accepts, max, |calls|);
    assert Identity(|calls|)[..|calls|] == Identity(|calls|);
    LiveOrder(w1, |calls|);
  }

  lemma LiveOrder(w: World, n: nat)
    requires Undisturbed(w)
    ensures NextOrder(w, n) == (Identity(n), w)
  {
    hide PlainBlocks;
  }

  // ----- Any turn of a steady world -----

  lemma AuthorizeIsCalm(w: World, call: ToolCall)
    ensures w.Live? ==> Calm(w, Authorize(w, call).1)
  {
    hide PlainBlocks;
  }

  lemma {:induction false} AuthorizeCallsIsCalm(w: World, calls: seq<ToolCall>)
    requires Steady(w)
    ensures var (ds, w1) := AuthorizeCalls(w, calls);
            && Calm(w, w1) && Steady(w1)
            && forall i :: 0 <= i < |calls| && calls[i].name !in w.tools ==> ds[i] == Go(calls[i].args, false)
  {
    hide Steady, Undisturbed, Authorize;
    SteadyIsLive(w);
    if calls != [] {
      var init, c := calls[..|calls| - 1], calls[|calls| - 1];
      AuthorizeCallsIsCalm(w, init);
      var w1 := AuthorizeCalls(w, init).1;
      SteadyIsLive(w1);
      AuthorizeIsCalm(w1, c);
      CalmOn(w, w1, Authorize(w1, c).1);
    }
  }

  lemma RunCallIsCalm(w: World, call: ToolCall, d: Decision, accepts: bool, max: int)
    requires Steady(w) && d.Go? && call.id != ""
    ensures Calm(w, RunCall(w, call, d, accepts, max).1)
    ensures call.name !in w.tools && !d.rewritten ==> RunCall(w, call, d, accepts, max).0 == UnknownTool(call.name)
  {
    hide PlainBlocks, RunRes;
  }

  predicate UnknownAnswered(tools: seq<string>, call: ToolCall, res: ToolRes) {
    call.name !in tools ==> res == UnknownTool(call.name)
  }

  predicate UnknownGo(tools: seq<string>, calls: seq<ToolCall>, ds: seq<Decision>) {
    |ds| == |calls| && forall i :: 0 <= i < |calls| && calls[i].name !in tools ==> ds[i] == Go(calls[i].args, false)
  }

  lemma {:induction false} InOrderIsCalm(w: World, calls: seq<ToolCall>, ds: seq<Decision>, accepts: bool, max: int,
                                         n: nat)
    requires Steady(w) && n <= |calls| && UnknownGo(w.tools, calls, ds) && (forall c | c in calls :: c.id != "")
    ensures var (rs, stopped, w1) := Sequential(w, calls, ds, accepts, max, n);
            Calm(w, w1) && Steady(w1) && forall i :: 0 <= i < |rs| ==> UnknownAnswered(w.tools, calls[i], rs[i])
  {
    hide Steady, Undisturbed, RunCall, Cancelled;
    SteadyIsLive(w);
    if n > 0 {
      InOrderIsCalm(w, calls, ds, accepts, max, n - 1);
      var (rs, stopped, w1) := Sequential(w, calls, ds, accepts, max, n - 1);
      LooksAreCalm(w1);
      var w2 := Cancelled(w1).1;
      CalmOn(w, w1, w2);
      if ds[n - 1].Go? {
        RunCallIsCalm(w2, calls[n - 1], ds[n - 1], accepts, max);
        CalmOn(w, w2, RunCall(w2, calls[n - 1], ds[n - 1], accepts, max).1);
      }
    }
  }

  lemma {:induction false} AtOnceIsCalm(w: World, calls: seq<ToolCall>, ds: seq<Decision>, accepts: bool, max: int,
                                        n: nat)
    requires Steady(w) && n <= |calls| && UnknownGo(w.tools, calls, ds) && (forall c | c in calls :: c.id != "")
    ensures var (rs, w1) := Parallel(w, calls, ds, accepts, max, Identity(|calls|)[..n]);
            Calm(w, w1) && Steady(w1) && forall i :: 0 <= i < n ==> UnknownAnswered(w.tools, calls[i], rs[i])
  {
    hide Steady, Undisturbed, RunCall;
    SteadyIsLive(w);
    if n > 0 {
      AtOnceIsCalm(w, calls, ds, accepts, max, n - 1);
      var order := Identity(|calls|)[..n];
      assert order[..n - 1] == Identity(|calls|)[..n - 1];
      var (rs, w1) := Parallel(w, calls, ds, accepts, max, order[..n - 1]);
      if ds[n - 1].Go? {
        RunCallIsCalm(w1, calls[n - 1], ds[n - 1], accepts, max);
        CalmOn(w, w1, RunCall(w1, calls[n - 1], ds[n - 1], accepts, max).1);
      }
    }
  }

  /** A tool turn leaves a steady world steady, and answers a call to a tool it lacks with the unknown-tool error. */
  lemma ToolsAreCalm(w: World, calls: seq<ToolCall>, parallel: bool, accepts: bool, max: int)
    requires Steady(w) && (forall c | c in calls :: c.id != "")
    ensures var (rs, w1) := ExecuteTools(w, calls, parallel, accepts, max);
            Calm(w, w1) && Steady(w1) && forall i :: 0 <= i < |rs| ==> UnknownAnswered(w.tools, calls[i], rs[i])
  {
    hide Steady, Undisturbed, AuthorizeCalls, Sequential, Parallel, UnknownAnswered;
    SteadyIsLive(w);
    AuthorizeCallsIsCalm(w, calls);
    var (ds, w1) := AuthorizeCalls(w, calls);
    SteadyIsLive(w1);
    InOrderIsCalm(w1, calls, ds, accepts, max, |calls|);
    AtOnceIsCalm(w1, calls, ds, accepts, max, |calls|);
    CalmOn(w, w1, Sequential(w1, calls, ds, accepts, max, |calls|).2);
    CalmOn(w, w1, Parallel(w1, calls, ds, accepts, max, Identity(|calls|)[..|calls|]).1);
    assert Identity(|calls|)[..|calls|] == Identity(|calls|);
  }
}
