/** The replay client: a recorded event list turned into a client, a tool set and a policy
    (agent/replay.go). */
module ReplayClient {

  import opened Decimal
  import opened Chat
  import opened Summaries
  import opened Record

  // ----- Reading the record -----

  /** One completion to serve: its reply, the tool-call ids recorded before it, and the request messages
      recorded right after a compaction. */
  datatype ReplayStep = ReplayStep(reply: Reply, expectIds: seq<string>, afterCompaction: Option<seq<Message>>)

  /** One recorded call with its step and the index of the response that requested it. */
  datatype RunAt = RunAt(step: nat, resp: int, run: RunRecord)

  /** The accumulators of the loop over the record. */
  datatype Scanned = Scanned(responses: seq<ReplayStep>, pending: seq<string>, compaction: bool,
                             offered: seq<string>, runs: seq<RunAt>,
                             summaries: seq<seq<Reply>>, open: seq<Reply>)

  const NOTHING_SCANNED := Scanned([], [], false, [], [], [], [])

  /** A closed group of purpose calls is a recorded summary when its last call succeeded. */
  function Flush(s: Scanned): Scanned {
    s.(summaries := if s.open != [] && s.open[|s.open| - 1].Answer? then s.summaries + [s.open] else s.summaries,
       open := [])
  }

  function ScanEvent(s: Scanned, ev: Event): Scanned {
    if ev.Completion? && ev.purpose then s.(open := s.open + [ev.reply])
    else
      var f := Flush(s);
      match ev
      case Start(tools) => f.(offered := tools)
      case ToolRun(step, run) =>
        f.(pending := f.pending + [run.call.id], runs := f.runs + [RunAt(step, |f.responses| - 1, run)])
      case Compacted(_, _, _, _) => f.(compaction := true)
      case Completion(_, req, reply, _) =>
        if reply.Failed? then f
        else
          f.(responses := f.responses +
               [ReplayStep(reply, f.pending, if f.compaction then Some(req.messages) else None)],
             pending := [], compaction := false)
      case _ => f
  }

  function Scan(evs: seq<Event>): Scanned {
    if evs == [] then NOTHING_SCANNED else ScanEvent(Scan(evs[..|evs| - 1]), evs[|evs| - 1])
  }

  method ScanRecord(evs: seq<Event>) returns (s: Scanned)
    ensures s == Scan(evs)
  {
    hide ScanEvent;
    s := NOTHING_SCANNED;
    for i := 0 to |evs|
      invariant s == Scan(evs[..i])
    {
      assert evs[..i + 1][..i] == evs[..i];
      s := ScanEvent(s, evs[i]);
    }
    assert evs[..|evs|] == evs;
  }

  predicate IsUnknownToolRun(run: RunRecord) {
    run.isError && !run.denied && run.result == UnknownTool(run.call.name).result
  }

  /** The recorded call names the recording Runner did not register. */
  predicate Unregistered(offered: seq<string>, runs: seq<RunAt>, name: string) {
    name == "" ||
    if offered != [] then name !in offered
    else forall i :: 0 <= i < |runs| && runs[i].run.call.name == name ==> IsUnknownToolRun(runs[i].run)
  }

  /** One recorded tool turn. */
  datatype Group = Group(step: nat, resp: int, calls: seq<RunRecord>, denials: seq<RunRecord>)

  function Joins(groups: seq<Group>, step: nat): bool {
    groups != [] && groups[|groups| - 1].step == step
  }

  /** File one recorded call under its step. */
  function AddRun(groups: seq<Group>, r: RunAt): seq<Group> {
    var gs := if Joins(groups, r.step) then groups else groups + [Group(r.step, r.resp, [], [])];
    var g := gs[|gs| - 1];
    gs[|gs| - 1 := if r.run.denied then g.(denials := g.denials + [r.run]) else g.(calls := g.calls + [r.run])]
  }

  /** The tool turns of the registered calls, in recorded order. */
  function Groups(offered: seq<string>, all: seq<RunAt>, runs: seq<RunAt>): seq<Group> {
    if runs == [] then []
    else
      var gs := Groups(offered, all, runs[..|runs| - 1]);
      var r := runs[|runs| - 1];
      if Unregistered(offered, all, r.run.call.name) then gs else AddRun(gs, r)
  }

  /** A record is replayable when it has a completion and every call to an unregistered tool is the unknown-tool
      error. */
  predicate Replayable(s: Scanned) {
    s.responses != [] &&
    forall i :: 0 <= i < |s.runs| && Unregistered(s.offered, s.runs, s.runs[i].run.call.name) ==>
        IsUnknownToolRun(s.runs[i].run)
  }

  // ----- The client -----

  datatype Replay = Replay(responses: seq<ReplayStep>, idx: nat, groups: seq<Group>, gi: nat,
                           used: set<(nat, nat)>, diverged: bool, unreproduced: bool,
                           summaries: seq<seq<Reply>>, nextSummary: nat)

  function NewReplay(evs: seq<Event>): Option<Replay> {
    var s := Flush(Scan(evs));
    if !Replayable(s) then None
    else Some(Replay(s.responses, 0, Groups(s.offered, s.runs, s.runs), 0, {}, false, false, s.summaries, 0))
  }

  function ResultIds(msgs: seq<Message>): seq<string> {
    if msgs == [] then []
    else
      var m := msgs[|msgs| - 1];
      ResultIds(msgs[..|msgs| - 1]) + if m.role.ToolResult? then [m.toolCallId] else []
  }

  /** The ids of the last n tool results of a request. */
  function TrailingIds(msgs: seq<Message>, n: nat): seq<string> {
    var ids := ResultIds(msgs);
    if |ids| > n then ids[|ids| - n..] else ids
  }

  /** Serve the next recorded completion, or diverge. */
  function Serve(rc: Replay, req: Request): (Reply, Replay) {
    if rc.diverged then (Failed("diverged"), rc)
    else if rc.idx >= |rc.responses| then (Failed("exhausted"), rc.(diverged := true))
    else
      var step := rc.responses[rc.idx];
      if step.expectIds != [] && step.expectIds != TrailingIds(req.messages, |step.expectIds|)
      then (Failed("mismatch"), rc.(diverged := true))
      else
        var off := step.afterCompaction.Some? && step.afterCompaction.value != req.messages;
        (step.reply, rc.(idx := rc.idx + 1, unreproduced := rc.unreproduced || off))
  }

  /** The calls of group gi not served yet. */
  predicate Unused(rc: Replay, gi: nat, i: nat) {
    gi < |rc.groups| && i < |rc.groups[gi].calls| && (gi, i) !in rc.used
  }

  predicate CallFits(r: RunRecord, name: string, args: string) {
    r.call.name == name && r.RanWith(args)
  }

  /** First index from i on whose call is unused, has the id and fits; else `fallback`. */
  function CallById(rc: Replay, id: string, name: string, args: string, i: nat, fallback: int): (m: int)
    requires rc.gi < |rc.groups| && i <= |rc.groups[rc.gi].calls|
    requires fallback == -1 || (0 <= fallback < |rc.groups[rc.gi].calls|)
    ensures m == -1 || (0 <= m < |rc.groups[rc.gi].calls|)
    decreases |rc.groups[rc.gi].calls| - i
  {
    var calls := rc.groups[rc.gi].calls;
    if i == |calls| then fallback
    else if !Unused(rc, rc.gi, i) || calls[i].call.id != id then CallById(rc, id, name, args, i + 1, fallback)
    else if CallFits(calls[i], name, args) then i
    else CallById(rc, id, name, args, i + 1, if fallback < 0 then i else fallback)
  }

  datatype Served = ServedCall(run: RunRecord) | NoMatch

  /** Serve one dispatched call from the turn being replayed; a fully used turn is left behind. */
  function ServeCall(rc: Replay, id: string, name: string, args: string): (Served, Replay)
    requires id != ""
    decreases |rc.groups| - rc.gi
  {
    if rc.gi >= |rc.groups| then (NoMatch, rc.(diverged := true))
    else
      var g := rc.groups[rc.gi];
      var m := if g.resp == rc.idx - 1 then CallById(rc, id, name, args, 0, -1) else -1;
      if m >= 0 then
        if !CallFits(g.calls[m], name, args) then (NoMatch, rc.(diverged := true))
        else (ServedCall(g.calls[m]), rc.(used := rc.used + {(rc.gi, m)}))
      else if exists i: nat :: i < |g.calls| && Unused(rc, rc.gi, i) then (NoMatch, rc.(diverged := true))
      else ServeCall(rc.(gi := rc.gi + 1), id, name, args)
  }

  /** What a served call gives the dispatching Runner: an error loses its prefix and gets it back from the
      Runner's renderer; a success is placed again and keeps its recorded limit. */
  function ServedRes(r: RunRecord, accepts: bool): ToolRes {
    if r.isError then
      ErrorRes(if ERROR_PREFIX <= r.result then r.result[|ERROR_PREFIX|..] else r.result)
    else
      var p := Placed(if r.content != [] then r.content else [Text(r.result)], accepts);
      p.(degraded := p.degraded + r.degraded, limit := r.limit)
  }

  /** First turn requested by the last served response. */
  function CurrentGroup(rc: Replay, i: nat): (g: int)
    requires i <= |rc.groups|
    ensures g == -1 || (i <= g < |rc.groups| && rc.groups[g].resp == rc.idx - 1)
    ensures g == -1 ==> forall j :: i <= j < |rc.groups| ==> rc.groups[j].resp != rc.idx - 1
    decreases |rc.groups| - i
  {
    if i == |rc.groups| then -1
    else if rc.groups[i].resp == rc.idx - 1 then i
    else CurrentGroup(rc, i + 1)
  }

  function DenialFor(denials: seq<RunRecord>, id: string): Option<string> {
    if denials == [] then None
    else if denials[0].call.id == id then Some(denials[0].denyReason)
    else DenialFor(denials[1..], id)
  }

  /** The recorded denials as a policy: deny by id in the current turn, allow everything else. */
  function ReplayPolicy(rc: Replay, id: string): Option<string> {
    var g := CurrentGroup(rc, 0);
    if g < 0 then None else DenialFor(rc.groups[g].denials, id)
  }

  /** The names the replay tools register. */
  predicate Registers(rc: Replay, name: string) {
    exists g :: 0 <= g < |rc.groups| && GroupNames(rc.groups[g], name)
  }

  predicate GroupNames(g: Group, name: string) {
    (exists i :: 0 <= i < |g.calls| && g.calls[i].call.name == name) ||
    (exists i :: 0 <= i < |g.denials| && g.denials[i].call.name == name)
  }

  /** `Err() == nil`: no divergence, every compaction reproduced, every completion served and every
      recorded call served. */
  predicate ReplayClean(rc: Replay) {
    && !rc.diverged && !rc.unreproduced
    && (rc.idx == 0 ||
        (&& rc.idx >= |rc.responses|
         && forall g: nat, i: nat :: g < |rc.groups| && i < |rc.groups[g].calls| ==> (g, i) in rc.used))
  }
}
