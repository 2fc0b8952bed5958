/** What a run meets outside the loop: the client, the tools, the policy, cancellation, steering and
    the shared pool. A live world is an oracle: its answers are arbitrary, listed in the order they are
    used; a list that runs out answers with its harmless default. A replaying world is the replay client
    with the orders its tools were dispatched in. A resuming world is the resume client over a live one. */
module Worlds {

  import opened Decimal
  import opened Chat
  import opened Summaries
  import opened Record
  import opened ReplayClient
  import opened ResumeClient

  datatype Verdict = Allow | Deny(reason: string) | Rewrite(args: string)

  datatype World =
    | Live(tools: seq<string>, replies: seq<Reply>, summaryReplies: seq<Reply>, outcomes: seq<ToolOutcome>,
           policy: bool, verdicts: seq<Verdict>, cancelIn: Option<nat>, steers: seq<seq<seq<Block>>>, pool: seq<bool>)
    | Replaying(rc: Replay, orders: seq<seq<nat>>)
    | Resuming(rs: Resumed, live: World, orders: seq<seq<nat>>)

  function Unserved(rc: Replay, diverged: bool): nat {
    if diverged || rc.idx > |rc.responses| then 0 else |rc.responses| - rc.idx
  }

  /** Completions the world can still answer. */
  function Remaining(w: World): nat {
    match w
    case Live(_, replies, _, _, _, _, _, _, _) => |replies|
    case Replaying(rc, _) => Unserved(rc, rc.diverged)
    case Resuming(rs, live, _) => Unserved(rs.rc, rs.diverged) + Remaining(live)
  }

  /** The recorded spend a resumed run has been served so far. */
  function Seed(w: World): Usage {
    if w.Resuming? then w.rs.seed else ZERO_USAGE
  }

  function Ask(w: World, req: Request): (r: (Reply, World))
    ensures Remaining(r.1) <= Remaining(w)
    ensures r.0.Answer? ==> Remaining(r.1) < Remaining(w)
  {
    match w
    case Live(_, replies, _, _, _, _, _, _, _) =>
      if replies == [] then (Failed(""), w) else (replies[0], w.(replies := replies[1..]))
    case Replaying(rc, _) =>
      var (reply, rc') := Serve(rc, req);
      (reply, w.(rc := rc'))
    case Resuming(rs, live, _) =>
      if rs.diverged then (Failed("diverged"), w)
      else if InPrefix(rs) then
        var (reply, rs') := ServePrefix(rs, req);
        (reply, w.(rs := rs'))
      else
        var (reply, live') := Ask(live, req);
        (reply, w.(rs := rs.(liveActive := true), live := live'))
  }

  /** The pass a recorded group of calls stands for. */
  function RecordedPass(strip: string -> string, calls: seq<Reply>): SummaryPass
    requires calls != []
  {
    var last := calls[|calls| - 1];
    SummaryPass(if last.Answer? then SummaryText(strip(last.resp.text)) else SummaryFailed, calls, [])
  }

  /** One summarization pass, or None when the world has no summary to give. */
  function AskSummary(w: World, strip: string -> string, partial: string -> string, entries: seq<string>)
      : (r: (Option<SummaryPass>, World))
    ensures Remaining(r.1) == Remaining(w)
  {
    match w
    case Live(_, _, summaryReplies, _, _, _, _, _, _) =>
      var pass := Summarize(strip, partial, summaryReplies, entries, 0);
      (Some(pass), w.(summaryReplies := pass.rest))
    case Replaying(rc, _) =>
      if rc.nextSummary >= |rc.summaries| || rc.summaries[rc.nextSummary] == [] then (None, w)
      else
        (Some(RecordedPass(strip, rc.summaries[rc.nextSummary])), w.(rc := rc.(nextSummary := rc.nextSummary + 1)))
    case Resuming(rs, live, _) =>
      if rs.diverged then (Some(SummaryPass(SummaryFailed, [], [])), w)
      else if OwnsPass(rs) then
        var (calls, rs') := ServePass(rs);
        (if calls.None? then None else Some(RecordedPass(strip, calls.value)), w.(rs := rs'))
      else
        var (pass, live') := AskSummary(live, strip, partial, entries);
        (pass, w.(live := live'))
  }

  /** The context is done; once it is, it stays done. */
  function Cancelled(w: World): (r: (bool, World))
    ensures Remaining(r.1) == Remaining(w)
  {
    match w
    case Live(_, _, _, _, _, _, cancelIn, _, _) =>
      if cancelIn.None? then (false, w)
      else if cancelIn.value == 0 then (true, w)
      else (false, w.(cancelIn := Some(cancelIn.value - 1)))
    case Replaying(_, _) => (false, w)
    case Resuming(_, live, _) => var (done, live') := Cancelled(live); (done, w.(live := live'))
  }

  /** Once the context is done it stays done. */
  lemma {:induction false} DoneStaysDone(w: World)
    ensures Cancelled(w).0 ==> Cancelled(Cancelled(w).1).0
  {
    if w.Resuming? {
      DoneStaysDone(w.live);
    }
  }

  function PoolExhausted(w: World): (r: (bool, World))
    ensures Remaining(r.1) == Remaining(w)
  {
    match w
    case Live(_, _, _, _, _, _, _, _, pool) => if pool == [] then (false, w) else (pool[0], w.(pool := pool[1..]))
    case Replaying(_, _) => (false, w)
    case Resuming(_, live, _) => var (exhausted, live') := PoolExhausted(live); (exhausted, w.(live := live'))
  }

  /** The user turns delivered at a drain point. */
  function Drain(w: World): (r: (seq<seq<Block>>, World))
    ensures Remaining(r.1) == Remaining(w)
  {
    match w
    case Live(_, _, _, _, _, _, _, steers, _) =>
      if steers == [] then ([], w) else (steers[0], w.(steers := steers[1..]))
    case Replaying(_, _) => ([], w)
    case Resuming(_, live, _) => var (turns, live') := Drain(live); (turns, w.(live := live'))
  }

  // ----- One turn's tool calls -----

  /** A call after authorization: run it with these arguments, or take this result. */
  datatype Decision = Go(args: string, rewritten: bool) | Resolved(res: ToolRes)

  predicate Registered(w: World, name: string) {
    match w
    case Live(tools, _, _, _, _, _, _, _, _) => name in tools
    case Replaying(rc, _) => Registers(rc, name)
    case Resuming(_, live, _) => Registered(live, name)
  }

  /** The caller's own policy. */
  function OwnPolicy(w: World, call: ToolCall): (r: (Decision, World))
    ensures Remaining(r.1) == Remaining(w)
  {
    if !w.Live? || !w.policy || w.verdicts == [] then (Go(call.args, false), w)
    else
      (match w.verdicts[0]
       case Allow => Go(call.args, false)
       case Deny(reason) => Resolved(DeniedRes(call.name, reason))
       case Rewrite(args) => Go(args, args != call.args),
       w.(verdicts := w.verdicts[1..]))
  }

  /** `resumePolicy.Authorize`: the recorded decision, else the caller's own policy. */
  function ResumePolicy(w: World, call: ToolCall): (r: (Decision, World))
    requires w.Resuming?
    ensures Remaining(r.1) <= Remaining(w)
  {
    if w.rs.diverged then (Resolved(DeniedRes(call.name, "diverged")), w)
    else
      var (ruling, rs') := RecordedDecision(w.rs, call);
      match ruling
      case DeniedAs(reason) => (Resolved(DeniedRes(call.name, reason)), w.(rs := rs'))
      case Dispatch(args) => (Go(args, args != call.args), w.(rs := rs'))
      case Mismatch => (Resolved(DeniedRes(call.name, "mismatch")), w.(rs := rs'))
      case RunLive(g) =>
        var (d, live') := OwnPolicy(w.live, call);
        (d, w.(rs := if d.Go? then NoteLive(rs', g, call, d.args) else rs', live := live'))
  }

  /** The policy's answer for one registered call; it is not asked once the context is done. */
  function Authorize(w: World, call: ToolCall): (r: (Decision, World))
    ensures Remaining(r.1) <= Remaining(w)
  {
    match w
    case Live(_, _, _, _, policy, _, _, _, _) =>
      if !policy then (Go(call.args, false), w)
      else
        var (done, w1) := Cancelled(w);
        if done then (Resolved(NotRun(call.name)), w1) else OwnPolicy(w1, call)
    case Replaying(rc, _) =>
      (match ReplayPolicy(rc, call.id)
       case Some(reason) => Resolved(DeniedRes(call.name, reason))
       case None => Go(call.args, false),
       w)
    case Resuming(_, _, _) =>
      var (done, w1) := Cancelled(w);
      if done then (Resolved(NotRun(call.name)), w1) else ResumePolicy(w1, call)
  }

  /** Every call of the turn is authorized, in call order, before the first one runs. */
  function AuthorizeCalls(w: World, calls: seq<ToolCall>): (r: (seq<Decision>, World))
    ensures |r.0| == |calls| && Remaining(r.1) <= Remaining(w)
  {
    if calls == [] then ([], w)
    else
      var (ds, w1) := AuthorizeCalls(w, calls[..|calls| - 1]);
      var c := calls[|calls| - 1];
      if !Registered(w1, c.name) then (ds + [Go(c.args, false)], w1)
      else
        var (d, w2) := Authorize(w1, c);
        (ds + [d], w2)
  }

  function Rewritten(d: Decision): Option<string>
    requires d.Go?
  {
    if d.rewritten then Some(if d.args == "" then "null" else d.args) else None
  }

  /** Dispatch one authorized call. */
  function RunCall(w: World, call: ToolCall, d: Decision, accepts: bool, max: int): (r: (ToolRes, World))
    requires d.Go? && call.id != ""
    ensures Remaining(r.1) <= Remaining(w)
  {
    if !Registered(w, call.name) then (UnknownTool(call.name).(dispatchedArgs := Rewritten(d)), w)
    else
      match w
      case Live(_, _, _, outcomes, _, _, _, _, _) =>
        var o := if outcomes == [] then Errored("") else outcomes[0];
        (RunRes(call.name, o, accepts, max).(dispatchedArgs := Rewritten(d)),
         if outcomes == [] then w else w.(outcomes := outcomes[1..]))
      case Replaying(rc, _) =>
        var (s, rc') := ServeCall(rc, call.id, call.name, d.args);
        ServeCallKeeps(rc, call.id, call.name, d.args);
        (match s case ServedCall(run) => ServedRes(run, accepts) case NoMatch => ErrorRes("diverged"), w.(rc := rc'))
      case Resuming(rs, live, _) =>
        var (found, rs') := LookupCall(rs, call.id, call.name, d.args);
        LookupCallKeeps(rs, call.id, call.name, d.args);
        match found
        case FromRecord(run) => (ServedRes(run, accepts).(dispatchedArgs := Rewritten(d)), w.(rs := rs'))
        case NotFound => (ErrorRes("mismatch").(dispatchedArgs := Rewritten(d)), w.(rs := rs'))
        case FromLive =>
          var (res, live') := RunCall(live, call, d, accepts, max);
          (res, w.(rs := rs', live := live'))
  }

  lemma LookupCallKeeps(rs: Resumed, id: string, name: string, args: string)
    ensures var rs' := LookupCall(rs, id, name, args).1;
            && rs'.rc == rs.rc.(used := rs'.rc.used) && rs'.strict == rs.strict && rs'.seed == rs.seed
            && rs'.liveActive == rs.liveActive && (rs.diverged ==> rs'.diverged)
  {
    hide CurrentGroup, FirstFit, CallById, CallFits;
  }

  lemma {:induction false} ServeCallKeeps(rc: Replay, id: string, name: string, args: string)
    requires id != ""
    ensures var rc' := ServeCall(rc, id, name, args).1;
            && rc'.responses == rc.responses && rc'.idx == rc.idx && rc'.groups == rc.groups
            && rc'.summaries == rc.summaries && rc'.nextSummary == rc.nextSummary && rc'.unreproduced == rc.unreproduced
            && (rc.diverged ==> rc'.diverged)
    decreases |rc.groups| - rc.gi
  {
    hide CallById, CallFits, Unused;
    if rc.gi < |rc.groups| {
      ServeCallKeeps(rc.(gi := rc.gi + 1), id, name, args);
    }
  }

  /** One at a time, stopping before the next dispatch once the context is done. */
  function Sequential(w: World, calls: seq<ToolCall>, ds: seq<Decision>, accepts: bool, max: int, n: nat)
      : (r: (seq<ToolRes>, bool, World))
    requires n <= |calls| == |ds| && forall c | c in calls :: c.id != ""
    ensures |r.0| <= n && (!r.1 ==> |r.0| == n) && (r.1 ==> |r.0| < n) && Remaining(r.2) <= Remaining(w)
  {
    if n == 0 then ([], false, w)
    else
      var (rs, stopped, w1) := Sequential(w, calls, ds, accepts, max, n - 1);
      if stopped then (rs, true, w1)
      else if ds[n - 1].Resolved? then (rs + [ds[n - 1].res], false, w1)
      else
        var (done, w2) := Cancelled(w1);
        if done then (rs, true, w2)
        else
          var (res, w3) := RunCall(w2, calls[n - 1], ds[n - 1], accepts, max);
          (rs + [res], false, w3)
  }

  predicate IsOrder(order: seq<nat>, n: nat) {
    && |order| == n
    && (forall i :: 0 <= i < n ==> order[i] < n)
    && (forall i, j :: 0 <= i < j < n ==> order[i] != order[j])
  }

  function Identity(n: nat): (order: seq<nat>)
    ensures IsOrder(order, n)
  {
    seq(n, i requires 0 <= i < n => i)
  }

  /** The order the goroutines of a parallel turn reach their tools in. */
  function NextOrder(w: World, n: nat): (r: (seq<nat>, World))
    ensures IsOrder(r.0, n) && Remaining(r.1) == Remaining(w)
  {
    if !w.Live? && w.orders != [] then
      (if IsOrder(w.orders[0], n) then w.orders[0] else Identity(n), w.(orders := w.orders[1..]))
    else (Identity(n), w)
  }

  const NO_RESULT := ErrorRes("")

  /** All at once: calls run in `order`, each writing its own slot. */
  function Parallel(w: World, calls: seq<ToolCall>, ds: seq<Decision>, accepts: bool, max: int, order: seq<nat>)
      : (r: (seq<ToolRes>, World))
    requires |calls| == |ds| && (forall c | c in calls :: c.id != "") &&
             (forall k :: 0 <= k < |order| ==> order[k] < |calls|)
    ensures |r.0| == |calls| && Remaining(r.1) <= Remaining(w)
  {
    if order == [] then (seq(|calls|, _ => NO_RESULT), w)
    else
      var (rs, w1) := Parallel(w, calls, ds, accepts, max, order[..|order| - 1]);
      var i := order[|order| - 1];
      if ds[i].Resolved? then (rs[i := ds[i].res], w1)
      else
        var (res, w2) := RunCall(w1, calls[i], ds[i], accepts, max);
        (rs[i := res], w2)
  }

  /** `executeTools`: one result per executed call, in call order, and never more results than calls. */
  function ExecuteTools(w: World, calls: seq<ToolCall>, parallel: bool, accepts: bool,
                        max: int): (r: (seq<ToolRes>, World))
    requires forall c | c in calls :: c.id != ""
    ensures |r.0| <= |calls| && Remaining(r.1) <= Remaining(w)
  {
    var (ds, w1) := AuthorizeCalls(w, calls);
    if !parallel || |calls| < 2 then
      var (rs, _, w2) := Sequential(w1, calls, ds, accepts, max, |calls|);
      (rs, w2)
    else
      var (order, w2) := NextOrder(w1, |calls|);
      Parallel(w2, calls, ds, accepts, max, order)
  }

  // ----- Undisturbed runs -----

  /** A lone text block, whose content the record drops, carries its text and nothing else. */
  predicate PlainBlocks(blocks: seq<Block>) {
    |blocks| == 1 && blocks[0].kind.TextBlock? ==> blocks[0] == Text(blocks[0].text)
  }

  /** A live world that steers nothing and whose tools return lone text blocks plain. Its policy may deny and rewrite
      calls, its context may end and its pool run dry. */
  predicate Steady(w: World) {
    && w.Live? && w.steers == [] && "" !in w.tools
    && (forall i :: 0 <= i < |w.outcomes| && w.outcomes[i].Returned? ==> PlainBlocks(w.outcomes[i].blocks))
  }

  /** A steady world that never stops the run. */
  predicate Undisturbed(w: World) {
    Steady(w) && w.cancelIn.None? && w.pool == []
  }

  /** The world lets the run go on, however often it is looked at. */
  predicate Quiet(w: World) {
    Cancelled(w) == (false, w) && Drain(w) == ([], w) && PoolExhausted(w) == (false, w)
  }

  lemma NeverCancelled(w: World)
    requires Undisturbed(w)
    ensures Quiet(w) && Cancelled(w) == (false, w) && Drain(w) == ([], w) && PoolExhausted(w) == (false, w)
  {
    hide PlainBlocks;
  }

  lemma QuietMeans(w: World)
    requires Quiet(w)
    ensures Cancelled(w) == (false, w) && Drain(w) == ([], w) && PoolExhausted(w) == (false, w)
  {
    hide Cancelled, Drain, PoolExhausted;
  }

  /** A steady world stays one, with the same tools, and an undisturbed one stays undisturbed. */
  predicate Calm(w: World, w': World) {
    && (Steady(w) ==> Steady(w') && w'.tools == w.tools)
    && (Undisturbed(w) ==> Undisturbed(w') && w'.tools == w.tools)
  }

  lemma CalmOn(a: World, b: World, c: World)
    requires Calm(a, b) && Calm(b, c)
    ensures Calm(a, c)
  {
  }

  lemma SteadyIsLive(w: World)
    ensures Steady(w) ==> w.Live? && "" !in w.tools
    ensures Undisturbed(w) ==> Steady(w) && w.Live? && "" !in w.tools
  {
  }

  lemma LooksAreCalm(w: World)
    ensures Calm(w, Cancelled(w).1) && Calm(w, PoolExhausted(w).1) && Calm(w, Drain(w).1)
    ensures Steady(w) ==> Drain(w) == ([], w)
  {
    hide PlainBlocks;
  }

  lemma AskIsCalm(w: World, req: Request)
    ensures Calm(w, Ask(w, req).1)
  {
    hide PlainBlocks, Serve;
  }

  lemma AskSummaryIsCalm(w: World, strip: string -> string, partial: string -> string, entries: seq<string>)
    ensures Calm(w, AskSummary(w, strip, partial, entries).1)
  {
    hide PlainBlocks, Summarize;
  }
}
