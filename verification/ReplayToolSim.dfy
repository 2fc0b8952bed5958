/** Replay simulates the record, tool turn by tool turn. */
module ReplayToolSim {

  import opened Decimal
  import opened Chat
  import opened Pairing
  import opened Record
  import opened ReplayClient
  import opened ReplayScan
  import opened ReplayTools
  import opened ReplayTurn
  import opened Worlds
  import opened Loop
  import opened LoopLog
  import opened ReplayAlign

  /** A call to a tool the Runner lacks was answered with the unknown-tool error. */
  predicate RunsTyped(runs: seq<RunAt>, tools: seq<string>) {
    forall i :: 0 <= i < |runs| && runs[i].run.call.name !in tools ==> IsUnknownToolRun(runs[i].run)
  }

  /** The replay registers exactly the recorded names the Runner had. */
  lemma UnregisteredMeansUnknown(tools: seq<string>, runs: seq<RunAt>, i: nat)
    requires RunsTyped(runs, tools) && "" !in tools && i < |runs|
    ensures Unregistered(tools, runs, runs[i].run.call.name) <==> runs[i].run.call.name !in tools
  {
    hide IsUnknownToolRun;
  }

  // ----- Where the turn is filed -----

  /** The runs of r, split at one turn: earlier turns, this one, later ones. */
  predicate SplitAt(all: seq<RunAt>, a: seq<RunAt>, t: seq<RunAt>, c: seq<RunAt>, step: nat, resp: int) {
    && all == a + t + c
    && OneTurn(t, step, resp)
    && (forall i :: 0 <= i < |a| ==> a[i].step < step && a[i].resp < resp)
    && (forall i :: 0 <= i < |c| ==> c[i].step > step && c[i].resp > resp)
  }

  lemma GroupsSplit(o: seq<string>, all: seq<RunAt>, a: seq<RunAt>, t: seq<RunAt>, c: seq<RunAt>, step: nat, resp: int)
    requires SplitAt(all, a, t, c, step, resp)
    ensures Groups(o, all, all) == Groups(o, all, a) + Groups(o, all, t) + Groups(o, all, c)
  {
    hide Groups;
    GroupsConcat(o, all, a, t);
    GroupsConcat(o, all, a + t, c);
  }

  /** The groups of earlier turns are done and have smaller responses; those of later turns are not. */
  lemma GroupsOutside(o: seq<string>, all: seq<RunAt>, a: seq<RunAt>, t: seq<RunAt>, c: seq<RunAt>, step: nat,
                      resp: int)
    requires SplitAt(all, a, t, c, step, resp)
    ensures forall g :: 0 <= g < |Groups(o, all, a)| ==>
              Groups(o, all, a)[g].resp < resp && Done(a, Groups(o, all, a)[g].resp)
    ensures forall g :: 0 <= g < |Groups(o, all, c)| ==> Groups(o, all, c)[g].resp > resp
  {
    hide Groups, Unregistered;
    GroupsAreRuns(o, all, a);
    GroupsAreRuns(o, all, c);
    var ga, gc := Groups(o, all, a), Groups(o, all, c);
    forall g | 0 <= g < |ga| ensures ga[g].resp < resp && Done(a, ga[g].resp) {
      assert GroupFrom(o, all, a, ga[g]);
    }
    forall g | 0 <= g < |gc| ensures gc[g].resp > resp {
      assert GroupFrom(o, all, c, gc[g]);
    }
  }

  /** Everything filed was registered. */
  predicate Clean(o: seq<string>, all: seq<RunAt>, g: Group) {
    && (forall i :: 0 <= i < |g.calls| ==> !Unregistered(o, all, g.calls[i].call.name))
    && (forall i :: 0 <= i < |g.denials| ==> !Unregistered(o, all, g.denials[i].call.name))
  }

  lemma {:induction false} GroupsAreClean(o: seq<string>, all: seq<RunAt>, runs: seq<RunAt>)
    ensures forall g :: 0 <= g < |Groups(o, all, runs)| ==> Clean(o, all, Groups(o, all, runs)[g])
  {
    hide Unregistered;
    if runs != [] {
      var n := |runs| - 1;
      GroupsAreClean(o, all, runs[..n]);
      if !Unregistered(o, all, runs[n].run.call.name) {
        AddRunIsClean(o, all, Groups(o, all, runs[..n]), runs[n]);
      }
    }
  }

  lemma AddRunIsClean(o: seq<string>, all: seq<RunAt>, gs: seq<Group>, r: RunAt)
    requires (forall g :: 0 <= g < |gs| ==> Clean(o, all, gs[g])) && !Unregistered(o, all, r.run.call.name)
    ensures forall g :: 0 <= g < |AddRun(gs, r)| ==> Clean(o, all, AddRun(gs, r)[g])
  {
    hide Unregistered;
    var out := AddRun(gs, r);
    var last := |out| - 1;
    var base := if Joins(gs, r.step) then gs[last] else Group(r.step, r.resp, [], []);
    assert Clean(o, all, base);
    assert Clean(o, all, out[last]);
    forall g | 0 <= g < last ensures Clean(o, all, out[g]) {
      assert out[g] == gs[g];
    }
  }

  lemma NamesAreRegistered(o: seq<string>, all: seq<RunAt>, rc: Replay, name: string)
    requires rc.groups == Groups(o, all, all) && Registers(rc, name)
    ensures !Unregistered(o, all, name)
  {
    hide Groups, Unregistered;
    GroupsAreClean(o, all, all);
    var g :| 0 <= g < |rc.groups| && GroupNames(rc.groups[g], name);
    assert Clean(o, all, rc.groups[g]);
  }

  /** The recorded calls of one turn carry distinct ids. */
  predicate TurnIds(t: seq<RunAt>, calls: seq<ToolCall>) {
    |t| == |calls| && DistinctIds(calls) && forall i :: 0 <= i < |t| ==> t[i].run.call == calls[i]
  }

  lemma {:induction false} ServedIdsDistinct(o: seq<string>, all: seq<RunAt>, t: seq<RunAt>, calls: seq<ToolCall>)
    requires TurnIds(t, calls)
    ensures DistinctRunIds(ServedCalls(o, all, t))
  {
    hide Unregistered;
    if t != [] {
      var n := |t| - 1;
      ServedIdsDistinct(o, all, t[..n], calls[..n]);
      FiledAreRuns(o, all, t[..n]);
      var prev := ServedCalls(o, all, t[..n]);
      forall m | 0 <= m < |prev| ensures prev[m].call.id != t[n].run.call.id {
        assert prev[m] in prev;
        assert IsRunOf(o, all, t[..n], prev[m], false);
        var i :| 0 <= i < n && t[..n][i].run == prev[m];
        assert calls[i].id != calls[n].id;
      }
    }
  }

  /** Looking a denial up by id finds the turn's own run or nothing. */
  lemma {:induction false} DenialLookup(denials: seq<RunRecord>, id: string)
    ensures DenialFor(denials, id).None? ==> forall d | d in denials :: d.call.id != id
    ensures DenialFor(denials, id).Some? ==>
            exists d :: d in denials && d.call.id == id && d.denyReason == DenialFor(denials, id).value
  {
    if denials != [] && denials[0].call.id != id {
      DenialLookup(denials[1..], id);
    }
  }

  lemma SameIdSameCall(calls: seq<ToolCall>, i: nat, j: nat)
    requires DistinctIds(calls) && i < |calls| && j < |calls| && calls[i].id == calls[j].id
    ensures i == j
  {
  }

  lemma DenialOf(o: seq<string>, all: seq<RunAt>, t: seq<RunAt>, calls: seq<ToolCall>, i: nat)
    requires TurnIds(t, calls) && i < |t|
    ensures DenialFor(DeniedCalls(o, all, t), calls[i].id) ==
              if t[i].run.denied && !Unregistered(o, all, calls[i].name) then Some(t[i].run.denyReason) else None
  {
    hide Unregistered, DeniedCalls, DenialFor;
    var ds := DeniedCalls(o, all, t);
    DenialLookup(ds, calls[i].id);
    FiledAreRuns(o, all, t);
    RunsAreFiled(o, all, t);
    forall d | d in ds && d.call.id == calls[i].id ensures d == t[i].run && d.denied &&
        !Unregistered(o, all, calls[i].name) {
      assert IsRunOf(o, all, t, d, true);
      var j :| 0 <= j < |t| && t[j].run == d;
      SameIdSameCall(calls, i, j);
    }
  }

  // ----- The turn, replayed -----

  /** A replay client at the start of the turn whose runs are t, filed after k earlier groups. */
  ghost predicate AtTurn(rc: Replay, tools: seq<string>, a: seq<RunAt>, t: seq<RunAt>, c: seq<RunAt>, step: nat,
                         calls: seq<ToolCall>) {
    && SplitAt(a + t + c, a, t, c, step, rc.idx - 1)
    && TurnIds(t, calls)
    && RunsTyped(a + t + c, tools) && "" !in tools
    && rc.groups == Groups(tools, a + t + c, a + t + c)
    && UsedIs(rc, a)
  }

  function TurnAt(tools: seq<string>, a: seq<RunAt>, t: seq<RunAt>, c: seq<RunAt>): nat {
    |Groups(tools, a + t + c, a)|
  }

  /** The shape of the client's groups around the turn. */
  lemma AroundTurn(rc: Replay, tools: seq<string>, a: seq<RunAt>, t: seq<RunAt>, c: seq<RunAt>, step: nat,
                   calls: seq<ToolCall>)
    requires AtTurn(rc, tools, a, t, c, step, calls)
    ensures var k := TurnAt(tools, a, t, c);
            var all := a + t + c;
            var served, denied := ServedCalls(tools, all, t), DeniedCalls(tools, all, t);
            && k <= |rc.groups|
            && (forall g: nat :: g < k ==> rc.groups[g].resp < rc.idx - 1 && Done(a, rc.groups[g].resp))
            && (served == [] && denied == [] ==> forall g: nat :: k <= g < |rc.groups| ==>
                rc.groups[g].resp > rc.idx - 1)
            && (served != [] || denied != [] ==>
                  && k < |rc.groups| && rc.groups[k] == Group(step, rc.idx - 1, served, denied)
                  && forall g: nat :: k < g < |rc.groups| ==> rc.groups[g].resp > rc.idx - 1)
  {
    hide Groups, ServedCalls, DeniedCalls, Unregistered;
    var all := a + t + c;
    GroupsSplit(tools, all, a, t, c, step, rc.idx - 1);
    GroupsOutside(tools, all, a, t, c, step, rc.idx - 1);
    GroupOfTurn(tools, all, t, step, rc.idx - 1);
    var ga, gt, gc := Groups(tools, all, a), Groups(tools, all, t), Groups(tools, all, c);
    assert rc.groups == ga + gt + gc;
    assert forall g: nat :: g < |ga| ==> rc.groups[g] == ga[g];
    forall g: nat | |ga| + |gt| <= g < |rc.groups| ensures rc.groups[g].resp > rc.idx - 1 {
      assert rc.groups[g] == gc[g - |ga| - |gt|];
    }
    if gt != [] {
      assert rc.groups[|ga|] == gt[0];
    }
  }

  lemma RegisteredIsTool(rc: Replay, tools: seq<string>, a: seq<RunAt>, t: seq<RunAt>, c: seq<RunAt>, step: nat,
                         calls: seq<ToolCall>, i: nat)
    requires AtTurn(rc, tools, a, t, c, step, calls) && i < |calls|
    ensures Registers(rc, calls[i].name) <==> calls[i].name in tools
    ensures Unregistered(tools, a + t + c, calls[i].name) <==> calls[i].name !in tools
  {
    hide Groups, ServedCalls, DeniedCalls, Unregistered, IsUnknownToolRun;
    var all := a + t + c;
    assert all[|a| + i] == t[i];
    UnregisteredMeansUnknown(tools, all, |a| + i);
    if Registers(rc, calls[i].name) {
      NamesAreRegistered(tools, all, rc, calls[i].name);
    }
    if calls[i].name in tools {
      RunsAreFiled(tools, all, t);
      AroundTurn(rc, tools, a, t, c, step, calls);
      var g := rc.groups[TurnAt(tools, a, t, c)];
      assert t[i].run in (if t[i].run.denied then g.denials else g.calls);
      assert GroupNames(g, calls[i].name);
    }
  }

  lemma CurrentIs(rc: Replay, k: nat, i: nat)
    requires i <= k < |rc.groups| && rc.groups[k].resp == rc.idx - 1
    requires forall g: nat :: i <= g < k ==> rc.groups[g].resp != rc.idx - 1
    ensures CurrentGroup(rc, i) == k
    decreases k - i
  {
    if i < k {
      CurrentIs(rc, k, i + 1);
    }
  }

  /** The replay policy denies exactly the recorded denials of the turn. */
  lemma PolicyIsRecorded(rc: Replay, tools: seq<string>, a: seq<RunAt>, t: seq<RunAt>, c: seq<RunAt>, step: nat,
                         calls: seq<ToolCall>, i: nat)
    requires AtTurn(rc, tools, a, t, c, step, calls) && i < |calls| && calls[i].name in tools
    ensures ReplayPolicy(rc, calls[i].id) == if t[i].run.denied then Some(t[i].run.denyReason) else None
  {
    hide Groups, ServedCalls, DeniedCalls, Unregistered, DenialFor, IsUnknownToolRun;
    AroundTurn(rc, tools, a, t, c, step, calls);
    RegisteredIsTool(rc, tools, a, t, c, step, calls, i);
    RunsAreFiled(tools, a + t + c, t);
    CurrentIs(rc, TurnAt(tools, a, t, c), 0);
    DenialOf(tools, a + t + c, t, calls, i);
  }

  function ReplayDecision(tools: seq<string>, call: ToolCall, run: RunRecord): Decision {
    if call.name in tools && run.denied then Resolved(DeniedRes(call.name, run.denyReason)) else Go(call.args, false)
  }

  lemma {:induction false} ReplayDecisions(w: World, tools: seq<string>, a: seq<RunAt>, t: seq<RunAt>, c: seq<RunAt>,
                                           step: nat,
                                           calls: seq<ToolCall>, n: nat)
    requires w.Replaying? && AtTurn(w.rc, tools, a, t, c, step, calls) && n <= |calls|
    ensures var (ds, w1) := AuthorizeCalls(w, calls[..n]);
            w1 == w && forall i :: 0 <= i < n ==> ds[i] == ReplayDecision(tools, calls[i], t[i].run)
  {
    hide AtTurn, ReplayPolicy, Registers, DeniedRes;
    if n > 0 {
      ReplayDecisions(w, tools, a, t, c, step, calls, n - 1);
      AtTurnLengths(w.rc, tools, a, t, c, step, calls);
      assert calls[..n][..n - 1] == calls[..n - 1];
      RegisteredIsTool(w.rc, tools, a, t, c, step, calls, n - 1);
      if calls[n - 1].name in tools {
        PolicyIsRecorded(w.rc, tools, a, t, c, step, calls, n - 1);
      }
    }
  }

  lemma AtTurnLengths(rc: Replay, tools: seq<string>, a: seq<RunAt>, t: seq<RunAt>, c: seq<RunAt>, step: nat,
                      calls: seq<ToolCall>)
    requires AtTurn(rc, tools, a, t, c, step, calls)
    ensures |t| == |calls| && DistinctIds(calls)
  {
    hide Groups;
  }

  function RecordsOf(t: seq<RunAt>): (r: seq<RunRecord>)
    ensures |r| == |t| && forall i :: 0 <= i < |r| ==> r[i] == t[i].run
  {
    seq(|t|, i requires 0 <= i < |t| => t[i].run)
  }

  /** No served call of the turn was rewritten. */
  predicate Unrewritten(tools: seq<string>, t: seq<RunAt>) {
    forall i :: 0 <= i < |t| && !t[i].run.denied && t[i].run.call.name in tools ==> t[i].run.dispatchedArgs == None
  }

  lemma TurnOpens(rc: Replay, tools: seq<string>, a: seq<RunAt>, t: seq<RunAt>, c: seq<RunAt>, step: nat,
                  calls: seq<ToolCall>, ds: seq<Decision>)
    requires AtTurn(rc, tools, a, t, c, step, calls) && Unrewritten(tools, t)
    requires |ds| == |calls| && (forall x | x in calls :: x.id != "")
    requires forall i :: 0 <= i < |calls| ==> ds[i] == ReplayDecision(tools, calls[i], t[i].run)
    ensures TurnOpen(rc, TurnAt(tools, a, t, c), calls, ds, RecordsOf(t))
  {
    hide Groups, ServedCalls, DeniedCalls, Unregistered, IsUnknownToolRun, Registers, TurnAt;
    var k := TurnAt(tools, a, t, c);
    AroundTurn(rc, tools, a, t, c, step, calls);
    ServedIdsDistinct(tools, a + t + c, t, calls);
    BehindTurn(rc, tools, a, t, c, step, calls, k);
    forall i: nat | i < |calls| && Dispatched(rc, calls[i], ds[i])
      ensures Filed(rc, k, calls[i], ds[i], t[i].run) && rc.groups[k].resp == rc.idx - 1
    {
      RegisteredIsTool(rc, tools, a, t, c, step, calls, i);
      RunsAreFiled(tools, a + t + c, t);
    }
  }

  lemma BehindTurn(rc: Replay, tools: seq<string>, a: seq<RunAt>, t: seq<RunAt>, c: seq<RunAt>, step: nat,
                   calls: seq<ToolCall>, k: nat)
    requires AtTurn(rc, tools, a, t, c, step, calls) && k == TurnAt(tools, a, t, c)
    ensures k <= |rc.groups| && rc.gi <= k && LeftBehind(rc, rc.gi, k)
    ensures k < |rc.groups| ==> forall m: nat :: m < |rc.groups[k].calls| ==> (k, m) !in rc.used
    ensures forall g: nat :: k <= g < |rc.groups| ==> !Done(a, rc.groups[g].resp)
  {
    hide Groups, ServedCalls, DeniedCalls, Unregistered, IsUnknownToolRun, RunsTyped, TurnIds;
    AroundTurn(rc, tools, a, t, c, step, calls);
    forall g: nat | k <= g < |rc.groups| ensures !Done(a, rc.groups[g].resp) {
      assert rc.groups[g].resp >= rc.idx - 1;
    }
    if k < |rc.groups| {
      assert !Done(a, rc.groups[k].resp);
    }
  }

  // ----- Results -----

  /** The same record and the same message. */
  predicate SameFeed(call: ToolCall, res: ToolRes, res': ToolRes) {
    RecordOf(call, res') == RecordOf(call, res) && ResMessage(res', call.id) == ResMessage(res, call.id)
  }

  lemma NotRewritten(tools: seq<string>, call: ToolCall, res: ToolRes, run: RunRecord)
    requires run == RecordOf(call, res) && (!run.denied && call.name in tools ==> run.dispatchedArgs == None)
    ensures call.name in tools && !res.denied ==> res.dispatchedArgs == None
  {
  }

  /** The same message, and the record as a resumed run makes it. */
  predicate FreeFeed(call: ToolCall, res: ToolRes, res': ToolRes) {
    RecordOf(call, res') == FreeRun(RecordOf(call, res)) && ResMessage(res', call.id) == ResMessage(res, call.id)
  }

  predicate Fed(w: World, call: ToolCall, res: ToolRes, res': ToolRes) {
    if w.Replaying? then SameFeed(call, res, res') else FreeFeed(call, res, res')
  }

  /** What the replay gives for a call is what the recorded run fed back. */
  lemma ExpectedIsRecorded(rc: Replay, tools: seq<string>, call: ToolCall, res: ToolRes, accepts: bool)
    requires LiveResult(tools, call, res, accepts)
    requires Registers(rc, call.name) <==> call.name in tools
    requires call.name in tools && !res.denied ==> res.dispatchedArgs == None
    ensures var rec := RecordOf(call, res);
            SameFeed(call, res, Expected(rc, call, ReplayDecision(tools, call, rec), rec, accepts))
  {
    hide Registers, BlocksText, ServedRes, ResMessage;
    if call.name in tools && !res.denied {
      ServedReproduces(call, res, accepts);
    }
  }

  /** Feeding the same results back keeps the states mirrored. */
  lemma {:induction false} ResultsEcho(st: State, w: World, run: string, calls: seq<ToolCall>, rs: seq<ToolRes>,
                                       rs': seq<ToolRes>)
    requires !w.Live? && |rs| == |rs'| <= |calls|
    requires forall i :: 0 <= i < |rs| ==> Fed(w, calls[i], rs[i], rs'[i])
    ensures Results(Echo(st, w, run), calls, rs') == Echo(Results(st, calls, rs), w, run)
  {
    hide RecordOf, ResMessage, Free;
    if rs != [] {
      var n := |rs| - 1;
      ResultsEcho(st, w, run, calls, rs[..n], rs'[..n]);
      assert Fed(w, calls[n], rs[n], rs'[n]);
      FreeSnoc(Results(st, calls, rs[..n]).log, ToolRun(st.iterations, RecordOf(calls[n], rs[n])));
    }
  }

  function Feed(calls: seq<ToolCall>, rs: seq<ToolRes>): (r: seq<Message>)
    requires |rs| <= |calls|
    ensures |r| == |rs| && forall i :: 0 <= i < |r| ==> r[i] == ResMessage(rs[i], calls[i].id)
  {
    seq(|rs|, i requires 0 <= i < |rs| => ResMessage(rs[i], calls[i].id))
  }

  lemma {:induction false} ResultsFeed(st: State, calls: seq<ToolCall>, rs: seq<ToolRes>)
    requires |rs| <= |calls|
    ensures Results(st, calls, rs).messages == st.messages + Feed(calls, rs)
    ensures ResultIds(Feed(calls, rs)) == Ids(calls[..|rs|])
  {
    hide RecordOf, ResMessage, ResultIds;
    FeedIds(calls, rs);
    if rs == [] {
      assert Feed(calls, rs) == [];
    } else {
      var n := |rs| - 1;
      ResultsFeed(st, calls, rs[..n]);
      FeedSnoc(calls, rs);
    }
  }

  lemma FeedSnoc(calls: seq<ToolCall>, rs: seq<ToolRes>)
    requires 0 < |rs| <= |calls|
    ensures var n := |rs| - 1; Feed(calls, rs) == Feed(calls, rs[..n]) + [ResMessage(rs[n], calls[n].id)]
  {
    hide ResMessage;
  }

  lemma {:induction false} FeedIds(calls: seq<ToolCall>, rs: seq<ToolRes>)
    requires |rs| <= |calls|
    ensures ResultIds(Feed(calls, rs)) == Ids(calls[..|rs|])
  {
    if rs == [] {
      assert Feed(calls, rs) == [] && Ids(calls[..0]) == [];
    } else {
      var n := |rs| - 1;
      var f := Feed(calls, rs);
      FeedIds(calls, rs[..n]);
      FeedSnoc(calls, rs);
      assert f[..n] == Feed(calls, rs[..n]);
      assert Ids(calls[..n + 1]) == Ids(calls[..n]) + [calls[n].id];
    }
  }

  lemma TailOfTurn(msgs: seq<Message>, calls: seq<ToolCall>, rs: seq<ToolRes>)
    requires msgs != [] && msgs[|msgs| - 1].role.Assistant? && |rs| == |calls|
    requires ResultIds(Feed(calls, rs)) == Ids(calls)
    ensures TailIds(msgs + Feed(calls, rs)) == Ids(calls)
  {
    hide LastAssistant, ResultIds, RecordOf;
    var out := msgs + Feed(calls, rs);
    LastAssistantIs(out, |msgs| - 1);
    assert out[|msgs|..] == Feed(calls, rs);
  }

  predicate Unstopped(w: World) {
    Cancelled(w) == (false, w)
  }

  /** In order is one of the orders, while the context is not done. */
  lemma {:induction false} InOrderIsAnOrder(w: World, calls: seq<ToolCall>, ds: seq<Decision>, accepts: bool, max: int,
                                            n: nat)
    requires n <= |calls| == |ds| && (forall x | x in calls :: x.id != "")
    requires forall m: nat :: m < n ==> Unstopped(Parallel(w, calls, ds, accepts, max, Identity(|calls|)[..m]).1)
    ensures var (rs, w1) := Parallel(w, calls, ds, accepts, max, Identity(|calls|)[..n]);
            Sequential(w, calls, ds, accepts, max, n) == (rs[..n], false, w1)
  {
    hide RunCall, Cancelled, Parallel, Sequential;
    if n == 0 {
      NothingRun(w, calls, ds, accepts, max, Identity(|calls|)[..0]);
    } else {
      InOrderIsAnOrder(w, calls, ds, accepts, max, n - 1);
      var i := n - 1;
      var prefix := Identity(|calls|)[..i];
      assert Identity(|calls|)[..n] == prefix + [i];
      var (rs, w1) := Parallel(w, calls, ds, accepts, max, prefix);
      assert Unstopped(w1);
      OneMoreCall(w, calls, ds, accepts, max, prefix, i);
      SlotAppends(rs, i);
    }
  }

  lemma NothingRun(w: World, calls: seq<ToolCall>, ds: seq<Decision>, accepts: bool, max: int, order: seq<nat>)
    requires |calls| == |ds| && (forall x | x in calls :: x.id != "") && order == []
    ensures Parallel(w, calls, ds, accepts, max, order).1 == w &&
            Sequential(w, calls, ds, accepts, max, 0) == ([], false, w)
  {
  }

  /** The next call of an order, and the next call in order. */
  lemma OneMoreCall(w: World, calls: seq<ToolCall>, ds: seq<Decision>, accepts: bool, max: int, prefix: seq<nat>,
                    i: nat)
    requires |calls| == |ds| && (forall x | x in calls :: x.id != "") && i < |calls|
    requires forall k :: 0 <= k < |prefix| ==> prefix[k] < |calls|
    ensures var (rs, w1) := Parallel(w, calls, ds, accepts, max, prefix);
            Parallel(w, calls, ds, accepts, max, prefix + [i]) ==
              if ds[i].Resolved? then (rs[i := ds[i].res], w1)
              else var (res, w2) := RunCall(w1, calls[i], ds[i], accepts, max); (rs[i := res], w2)
    ensures var (rs, stopped, w1) := Sequential(w, calls, ds, accepts, max, i);
            !stopped && (ds[i].Resolved? || Unstopped(w1)) ==>
              Sequential(w, calls, ds, accepts, max, i + 1) ==
                if ds[i].Resolved? then (rs + [ds[i].res], false, w1)
                else var (res, w2) := RunCall(w1, calls[i], ds[i], accepts, max); (rs + [res], false, w2)
  {
    hide RunCall, Cancelled;
    assert (prefix + [i])[..|prefix|] == prefix;
  }

  lemma SlotAppends(rs: seq<ToolRes>, i: nat)
    requires i < |rs|
    ensures forall res: ToolRes :: rs[i := res][..i + 1] == rs[..i] + [res]
  {
  }

  lemma {:induction false} ReplayStays(w: World, calls: seq<ToolCall>, ds: seq<Decision>, accepts: bool, max: int,
                                       order: seq<nat>)
    requires w.Replaying? && |calls| == |ds| && (forall x | x in calls :: x.id != "")
    requires forall k :: 0 <= k < |order| ==> order[k] < |calls|
    ensures var w1 := Parallel(w, calls, ds, accepts, max, order).1; w1.Replaying? && Unstopped(w1)
    decreases |order|
  {
    hide ServeCall, Registers, ServedRes;
    if order != [] {
      ReplayStays(w, calls, ds, accepts, max, order[..|order| - 1]);
    }
  }

  /** Executing a turn is running its calls in some order. */
  lemma ExecutesInSomeOrder(w: World, calls: seq<ToolCall>, parallel: bool, accepts: bool, max: int, ds: seq<Decision>,
                            w1: World)
      returns (order: seq<nat>, w2: World)
    requires !w.Live? && (forall x | x in calls :: x.id != "") && AuthorizeCalls(w, calls) == (ds, w1) && !w1.Live?
    requires forall m: nat :: m < |calls| ==> Unstopped(Parallel(w1, calls, ds, accepts, max, Identity(|calls|)[..m]).1)
    ensures IsOrder(order, |calls|) && !w2.Live? && w2 == w1.(orders := w2.orders)
    ensures w1.orders == [] ==> w2.orders == []
    ensures ExecuteTools(w, calls, parallel, accepts, max) == Parallel(w2, calls, ds, accepts, max, order)
  {
    hide AuthorizeCalls, Parallel, Sequential;
    if !parallel || |calls| < 2 {
      order, w2 := Identity(|calls|), w1;
      InOrderIsAnOrder(w1, calls, ds, accepts, max, |calls|);
      assert order[..|calls|] == order;
      var (rs, w3) := Parallel(w1, calls, ds, accepts, max, order);
      assert rs[..|calls|] == rs;
    } else {
      var (o, w3) := NextOrder(w1, |calls|);
      order, w2 := o, w3;
    }
  }

  /** Every call of an order of the whole turn is in it. */
  lemma {:induction false} OrderCovers(order: seq<nat>, n: nat, i: nat)
    requires IsOrder(order, n) && i < n
    ensures i in order
  {
    var hit := Hits(order);
    HitsAreAll(order);
    if i !in order {
      assert hit <= Range(n) - {i};
      NatSubsetSize(hit, Range(n) - {i});
      assert false;
    }
  }

  function Hits(order: seq<nat>): (r: set<nat>)
    ensures forall k: nat :: k in r <==> k in order
  {
    if order == [] then {}
    else
      assert order == order[..|order| - 1] + [order[|order| - 1]];
      Hits(order[..|order| - 1]) + {order[|order| - 1]}
  }

  lemma {:induction false} HitsAreAll(order: seq<nat>)
    requires forall i, j :: 0 <= i < j < |order| ==> order[i] != order[j]
    ensures |Hits(order)| == |order|
  {
    if order != [] {
      var m := |order| - 1;
      HitsAreAll(order[..m]);
      assert order[m] !in order[..m];
    }
  }

  function Range(n: nat): (r: set<nat>)
    ensures |r| == n && forall k: nat :: k in r <==> k < n
  {
    if n == 0 then {} else Range(n - 1) + {n - 1}
  }

  lemma {:induction false} NatSubsetSize(a: set<nat>, b: set<nat>)
    requires a <= b
    ensures |a| <= |b|
  {
    if a != {} {
      var x :| x in a;
      NatSubsetSize(a - {x}, b - {x});
    }
  }

  /** After the turn, in any order, its group is fully served and nothing else changed. */
  lemma TurnUses(rc: Replay, rc': Replay, tools: seq<string>, a: seq<RunAt>, t: seq<RunAt>, c: seq<RunAt>, step: nat,
                 calls: seq<ToolCall>, ds: seq<Decision>, order: seq<nat>)
    requires AtTurn(rc, tools, a, t, c, step, calls) && calls != []
    requires |ds| == |calls| && IsOrder(order, |calls|)
    requires forall i :: 0 <= i < |calls| ==> ds[i] == ReplayDecision(tools, calls[i], t[i].run)
    requires MidTurn(rc', rc, TurnAt(tools, a, t, c), ServedIds(rc, calls, ds, order))
    ensures UsedIs(rc', a + t)
  {
    hide Groups, ServedCalls, DeniedCalls, Unregistered, IsUnknownToolRun, Registers, TurnAt, IsOrder, ServedIds,
         RunsTyped;
    var k := TurnAt(tools, a, t, c);
    AroundTurn(rc, tools, a, t, c, step, calls);
    BehindTurn(rc, tools, a, t, c, step, calls, k);
    DoneAfter(a, t, step, rc.idx - 1);
    forall g: nat, m: nat | g < |rc.groups| && m < |rc.groups[g].calls|
      ensures (g, m) in rc'.used <==> Done(a + t, rc.groups[g].resp)
    {
      if g == k && rc.groups[k].resp == rc.idx - 1 {
        OwnGroupServed(rc, tools, a, t, c, step, calls, ds, order, m);
      } else if g == k {
        NothingElseServed(rc, tools, a, t, c, step, calls, ds, order);
      }
    }
  }

  lemma DoneAfter(a: seq<RunAt>, t: seq<RunAt>, step: nat, resp: int)
    requires OneTurn(t, step, resp) && t != []
    ensures forall x :: Done(a + t, x) <==> Done(a, x) || x == resp
  {
    var all := a + t;
    assert all[|a|] == t[0];
    forall x ensures Done(all, x) <==> Done(a, x) || x == resp {
      if Done(a, x) {
        var i :| 0 <= i < |a| && a[i].resp == x;
        assert all[i].resp == x;
      }
      if Done(all, x) {
        var i :| 0 <= i < |all| && all[i].resp == x;
        if i < |a| {
          assert a[i].resp == x;
        } else {
          assert all[i] == t[i - |a|];
        }
      }
    }
  }

  lemma OwnGroupServed(rc: Replay, tools: seq<string>, a: seq<RunAt>, t: seq<RunAt>, c: seq<RunAt>, step: nat,
                       calls: seq<ToolCall>, ds: seq<Decision>, order: seq<nat>, m: nat)
    requires AtTurn(rc, tools, a, t, c, step, calls) && |ds| == |calls| && IsOrder(order, |calls|)
    requires forall i :: 0 <= i < |calls| ==> ds[i] == ReplayDecision(tools, calls[i], t[i].run)
    requires var k := TurnAt(tools, a, t, c);
             k < |rc.groups| && rc.groups[k].resp == rc.idx - 1 && m < |rc.groups[k].calls|
    ensures rc.groups[TurnAt(tools, a, t, c)].calls[m].call.id in ServedIds(rc, calls, ds, order)
  {
    hide Groups, ServedCalls, DeniedCalls, Unregistered, IsUnknownToolRun, Registers, TurnAt, RunsTyped, UsedIs,
         SplitAt;
    AroundTurn(rc, tools, a, t, c, step, calls);
    var run := rc.groups[TurnAt(tools, a, t, c)].calls[m];
    FiledAreRuns(tools, a + t + c, t);
    assert run in ServedCalls(tools, a + t + c, t);
    assert IsRunOf(tools, a + t + c, t, run, false);
    var i :| 0 <= i < |t| && t[i].run == run && !run.denied && !Unregistered(tools, a + t + c, run.call.name);
    RegisteredIsTool(rc, tools, a, t, c, step, calls, i);
    OrderCovers(order, |calls|, i);
    var j :| 0 <= j < |order| && order[j] == i;
    assert Dispatched(rc, calls[order[j]], ds[order[j]]);
  }

  lemma NothingElseServed(rc: Replay, tools: seq<string>, a: seq<RunAt>, t: seq<RunAt>, c: seq<RunAt>, step: nat,
                          calls: seq<ToolCall>, ds: seq<Decision>, order: seq<nat>)
    requires AtTurn(rc, tools, a, t, c, step, calls) && |ds| == |calls| && IsOrder(order, |calls|)
    requires forall i :: 0 <= i < |calls| ==> ds[i] == ReplayDecision(tools, calls[i], t[i].run)
    requires var k := TurnAt(tools, a, t, c); k < |rc.groups| ==> rc.groups[k].resp != rc.idx - 1
    ensures ServedIds(rc, calls, ds, order) == {}
  {
    hide Groups, ServedCalls, DeniedCalls, Unregistered, IsUnknownToolRun, Registers, TurnAt, RunsTyped, UsedIs,
         SplitAt;
    AroundTurn(rc, tools, a, t, c, step, calls);
    RunsAreFiled(tools, a + t + c, t);
    forall j | 0 <= j < |order| ensures !Dispatched(rc, calls[order[j]], ds[order[j]]) {
      RegisteredIsTool(rc, tools, a, t, c, step, calls, order[j]);
    }
  }

  /** The whole turn, replayed: every result feeds back what was recorded, and the client moves past the turn. */
  lemma ReplayedTurn(w: World, tools: seq<string>, a: seq<RunAt>, t: seq<RunAt>, c: seq<RunAt>, step: nat,
                     calls: seq<ToolCall>, rs: seq<ToolRes>, parallel: bool, accepts: bool, max: int)
    requires w.Replaying? && AtTurn(w.rc, tools, a, t, c, step, calls) && calls != [] && |rs| == |calls|
    requires (forall x | x in calls :: x.id != "") && Unrewritten(tools, t)
    requires forall i :: 0 <= i < |calls| ==>
             t[i].run == RecordOf(calls[i], rs[i]) && LiveResult(tools, calls[i], rs[i], accepts)
    ensures var (rs', w') := ExecuteTools(w, calls, parallel, accepts, max);
            && w'.Replaying? && |rs'| == |calls|
            && w'.rc == w.rc.(gi := w'.rc.gi, used := w'.rc.used) && UsedIs(w'.rc, a + t)
            && forall i :: 0 <= i < |calls| ==> SameFeed(calls[i], rs[i], rs'[i])
  {
    hide AtTurn, AuthorizeCalls, Parallel, ExecuteTools, LiveResult, Registers, Expected, RecordOf, UsedIs,
         ReplayDecision, DistinctIds;
    AtTurnLengths(w.rc, tools, a, t, c, step, calls);
    ReplayDecisions(w, tools, a, t, c, step, calls, |calls|);
    assert calls[..|calls|] == calls;
    var (ds, _) := AuthorizeCalls(w, calls);
    forall m: nat | m < |calls| ensures Unstopped(Parallel(w, calls, ds, accepts, max, Identity(|calls|)[..m]).1) {
      ReplayStays(w, calls, ds, accepts, max, Identity(|calls|)[..m]);
    }
    var order, w2 := ExecutesInSomeOrder(w, calls, parallel, accepts, max, ds, w);
    forall i: nat | i < |calls|
      ensures SameFeed(calls[i], rs[i], Expected(w.rc, calls[i], ds[i], t[i].run, accepts))
    {
      RegisteredIsTool(w.rc, tools, a, t, c, step, calls, i);
      NotRewritten(tools, calls[i], rs[i], t[i].run);
      ExpectedIsRecorded(w.rc, tools, calls[i], rs[i], accepts);
    }
    TurnOpens(w.rc, tools, a, t, c, step, calls, ds);
    AnyOrderServes(w2, calls, ds, RecordsOf(t), TurnAt(tools, a, t, c), accepts, max, order);
    var (rs', w') := Parallel(w2, calls, ds, accepts, max, order);
    TurnUses(w.rc, w'.rc, tools, a, t, c, step, calls, ds, order);
    forall i: nat | i < |calls| ensures SameFeed(calls[i], rs[i], rs'[i]) {
      OrderCovers(order, |calls|, i);
    }
  }
}
