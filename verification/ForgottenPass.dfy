/** One recorded run whose resumed run fails (agent/resume.go:246-300, agent/runner.go:609-622): a paid summary arms
    the reserve trigger at the history it left plus the reserve; served again for nothing it arms it at zero, so the
    resumed run compacts a turn early, with the record's next summary, and asks what the record never asked. */
module ForgottenPass {

  import opened Decimal
  import opened Chat
  import opened Pairing
  import opened Summaries
  import opened Triggers
  import opened CallIds
  import opened Record
  import opened ReplayClient
  import opened ReplayScan
  import opened ResumeClient
  import opened Worlds
  import opened Loop
  import opened ReplaySim
  import opened ReplayTheorem

  // ----- Turns without tools -----

  predicate Unlimited(cfg: Config) {
    cfg.maxIterations < 0 && cfg.tokenBudget < 0
  }

  /** The state after an answer without tool calls. */
  function Said(cfg: Config, m: State, resp: Response, w: World): State {
    var ev := Completion(m.iterations + 1, Request(Wire(m.messages, cfg.accepts), false), Answer(resp), false);
    Append(Fold(cfg, Emit(m.(world := w), ev), resp), resp.Turn())
  }

  function Nudged(cfg: Config, st: State): State {
    Append(st.(nudges := st.nudges + 1), TextMessage(User, cfg.prompts.emptyTurnNudge))
  }

  lemma NothingFilled(run: string, step: nat, history: seq<Message>)
    ensures Filled(run, step, history, []) == []
  {
    hide UsedIds, NamedIds;
  }

  lemma AnsweredTurn(cfg: Config, st: State, m: State, resp: Response, w: World)
    requires Unlimited(cfg) && Quiet(st.world) && Quiet(w) && MaybeCompact(cfg, st) == Kept(m)
    requires Ask(m.world, Request(Wire(m.messages, cfg.accepts), false)) == (Answer(resp), w)
    requires resp.toolCalls == [] && resp.stop.EndTurn? &&
             (cfg.strip(resp.text) == "" ==> m.nudges < MAX_EMPTY_TURN_NUDGES)
    ensures var next := Said(cfg, m, resp, w);
            Turn(cfg, st) == if cfg.strip(resp.text) == "" then Again(Nudged(cfg, next)) else Ended(next)
  {
    hide MaybeCompact, Ask, Wire, Charged, Filled, Drain, Cancelled, PoolExhausted, Recover, Usage.Add;
    assert st.(world := st.world) == st;
    NothingDrained(st);
    NothingFilled(m.run, m.iterations + 1, Wire(m.messages, cfg.accepts));
    assert resp.(toolCalls := []) == resp;
    assert Complete(cfg, m, false).Completed? && Complete(cfg, m, false).resp == resp;
    var next := Said(cfg, m, resp, w);
    assert CompleteOnce(cfg, m, false) == Completed(resp, next);
    NothingDrained(next);
  }

  lemma RefusedTurn(cfg: Config, st: State, m: State)
    requires Unlimited(cfg) && Quiet(st.world) && MaybeCompact(cfg, st) == Kept(m)
    requires Ask(m.world, Request(Wire(m.messages, cfg.accepts), false)).0.Failed?
    ensures var t := Turn(cfg, st); t.Broke? && t.fault == CompletionFailed
  {
    hide MaybeCompact, Ask, Wire, Charged, Filled, Drain, Cancelled, PoolExhausted, Recover, Usage.Add;
    assert st.(world := st.world) == st;
    NothingDrained(st);
  }

  // ----- Summaries at a boundary -----

  /** Messages without tool calls or results are sent as they are. */
  predicate Plain(msgs: seq<Message>) {
    forall i :: 0 <= i < |msgs| ==> !msgs[i].role.ToolResult? && !msgs[i].role.System? && msgs[i].toolCalls == []
  }

  lemma PlainWire(msgs: seq<Message>, accepts: bool)
    requires Plain(msgs)
    ensures Wire(msgs, accepts) == msgs
  {
  }

  /** The state a boundary leaves whose summary shrank the history from `before` to `after`. */
  function Summed(cfg: Config, st: State, msgs: seq<Message>, calls: seq<Reply>, w: World, before: nat,
                  after: nat): State {
    var p := AtBoundary(before, after, Spend(calls) != ZERO_USAGE);
    st.(world := w, messages := msgs,
        log := st.log + PurposeEvents(st.iterations + 1, calls) + [Compacted(st.iterations + 1, before, after, false)],
        usage := st.usage.Add(Spend(calls)), charged := Charged(cfg, st.charged, Spend(calls)),
        passes := st.passes + [p], triggers := Apply(st.triggers, p))
  }

  lemma SummaryBoundary(cfg: Config, st: State, from: nat, at: nat, pass: SummaryPass, w: World, before: nat,
                        after: nat)
    requires cfg.compactor.Summarizing? && !st.triggers.stubOnly && st.triggers.proactive && Plain(st.messages)
    requires st.world.Resuming? ==> !st.world.rs.diverged
    requires before == EstimateTokens(st.messages) && st.triggers.Due(before)
    requires SummaryCut(cfg.prompts, st.messages) == Cut(from, at) && pass.result.SummaryText?
    requires AskSummary(st.world, cfg.strip, cfg.partial, cfg.render(Wire(st.messages, cfg.accepts)[from..at])) ==
             (Some(pass), w)
    requires var joined := Joined(cfg.prompts, st.messages, from, at, pass.result.text);
             Plain(joined) && after == EstimateTokens(joined) < before
    ensures MaybeCompact(cfg, st) ==
              Kept(Summed(cfg, st, Joined(cfg.prompts, st.messages, from, at, pass.result.text), pass.calls, w, before,
                          after))
  {
    hide SummaryCut, AskSummary, Spend, EstimateTokens, Wire, Charged, Joined, Plain, Usage.Add, PurposeEvents, Apply;
    var joined := Joined(cfg.prompts, st.messages, from, at, pass.result.text);
    PlainWire(st.messages, cfg.accepts);
    PlainWire(joined, cfg.accepts);
    assert Summarized(cfg.prompts, st.messages, cfg.accepts, from, at, pass.result.text) == joined;
    BoundaryLeaves(cfg, st);
  }

  // ----- The run -----

  function Pad(n: nat): (s: string)
    ensures |s| == n
  {
    seq(n, _ => 'x')
  }

  /** What the run leaves open: the program's prompts, how it strips, joins and renders texts and weighs usage, and an
      answer that strips to nothing. */
  datatype Setting = Setting(prompts: Prompts, strip: string -> string, partial: string -> string,
                             render: seq<Message> -> seq<string>, charge: Charge, empty: string)

  /** The few facts the run needs of them: one-letter texts are no prompts and are left alone, and an answer of some
      length, all of it thought, strips to nothing. */
  predicate Fits(e: Setting) {
    && !(e.prompts.summaryHeader <= "s") && NoPrompt(e.prompts, "u") && NoPrompt(e.prompts, "t")
    && e.strip("1") == "1" && e.strip("2") == "2" && e.strip("d") == "d" && e.strip(e.empty) == "" && |e.empty| >= 8
  }

  predicate NoPrompt(p: Prompts, s: string) {
    s != p.emptyTurnNudge && s != p.continueText && !(p.finalizeHead <= s)
  }

  function Header(e: Setting): nat {
    |e.prompts.summaryHeader|
  }

  /** What one nudged answer adds. */
  function Growth(e: Setting): nat {
    |e.empty| + |e.prompts.emptyTurnNudge|
  }

  function Reserve(e: Setting): nat {
    Growth(e) / 4 + 2
  }

  /** A reserve of little more than one nudged answer, in a window that just holds the summarized history besides. */
  function Cfg(e: Setting): Config {
    Config(-1, -1, 0, Reserve(e), Tokens1(e) + 1 + Reserve(e), false, false, 0, "", Summarizing, e.prompts, e.charge,
           e.strip, e.partial, e.render)
  }

  function User1(s: string): Message {
    TextMessage(User, s)
  }

  function Says(s: string): Message {
    TextMessage(Assistant, s)
  }

  const PAID := Usage(1, 0, 0, 0, 0, false)

  function Answers(text: string, u: Usage): Response {
    Response(text, [], [], u, EndTurn)
  }

  function Seeds(e: Setting): seq<Message> {
    [User1("s"), Says(Pad(Header(e) + 100)), User1("u"), Says(Pad(40))]
  }

  function History(e: Setting): seq<Message> {
    Seeds(e) + [User1("t")]
  }

  function Padded(e: Setting): Response {
    Answers(e.empty, ZERO_USAGE)
  }

  const DONE := Answers("d", ZERO_USAGE)
  const FIRST := Answer(Answers("1", PAID))
  const SECOND := Answer(Answers("2", PAID))

  /** A world without tools and these replies. */
  function Replying(replies: seq<Reply>, summaries: seq<Reply>): (w: World)
    ensures w.Live? && w.replies == replies && w.summaryReplies == summaries && w.tools == []
  {
    Live([], replies, summaries, [], false, [], None, [], [])
  }

  function Outside(e: Setting): World {
    Replying([Answer(Padded(e)), Answer(Padded(e)), Answer(DONE)], [FIRST, SECOND])
  }

  function Nudging(e: Setting): seq<Message> {
    [Says(e.empty), User1(e.prompts.emptyTurnNudge)]
  }

  /** The history after the first summary, after one nudged answer and after two, and after the second summary. */
  function After1(e: Setting): seq<Message> {
    [User1("s"), User1(e.prompts.summaryHeader + "1"), Says(Pad(40)), User1("t")]
  }

  function Grown1(e: Setting): seq<Message> {
    After1(e) + Nudging(e)
  }

  function Grown2(e: Setting): seq<Message> {
    Grown1(e) + Nudging(e)
  }

  function After2(e: Setting): seq<Message> {
    Early(e) + Nudging(e)
  }

  /** The history the second summary leaves when it comes a turn early. */
  function Early(e: Setting): seq<Message> {
    [User1("s"), User1(e.prompts.summaryHeader + "2")] + Nudging(e)
  }

  /** Their sizes. */
  function Tokens0(e: Setting): nat {
    (143 + Header(e)) / 4
  }

  function Tokens1(e: Setting): nat {
    (43 + Header(e)) / 4
  }

  function Tokens2(e: Setting): nat {
    (43 + Header(e) + Growth(e)) / 4
  }

  function Tokens3(e: Setting): nat {
    (43 + Header(e) + 2 * Growth(e)) / 4
  }

  function Tokens4(e: Setting): nat {
    (2 + Header(e) + 2 * Growth(e)) / 4
  }

  function TokensEarly(e: Setting): nat {
    (2 + Header(e) + Growth(e)) / 4
  }

  /** The sizes stand to each other and to the reserve as the run needs it. */
  lemma SizesFit(e: Setting)
    requires Fits(e)
    ensures Tokens1(e) + 1 < Tokens2(e) < Tokens1(e) + Reserve(e) <= Tokens3(e) && Tokens1(e) + 1 < Tokens0(e)
    ensures Tokens4(e) < Tokens3(e) && TokensEarly(e) < Tokens2(e)
  {
    var x, d := 43 + Header(e), Growth(e);
    assert x / 4 + d / 4 <= (x + d) / 4 <= x / 4 + d / 4 + 1;
    assert (x + 2 * d) / 4 >= x / 4 + 2 * (d / 4);
  }

  lemma BytesSnoc(msgs: seq<Message>, role: Role, s: string)
    ensures HistoryBytes(msgs + [TextMessage(role, s)]) == HistoryBytes(msgs) + |s|
  {
    assert (msgs + [TextMessage(role, s)])[..|msgs|] == msgs;
    assert [Text(s)][1..] == [];
    assert ContentBytes([Text(s)]) == |s|;
    assert MessageBytes(TextMessage(role, s)) == |s|;
  }

  lemma NoBytes()
    ensures HistoryBytes([]) == 0
  {
  }

  lemma Sizes(e: Setting)
    ensures EstimateTokens(History(e)) == Tokens0(e) && EstimateTokens(After1(e)) == Tokens1(e)
    ensures EstimateTokens(Grown1(e)) == Tokens2(e) && EstimateTokens(Grown2(e)) == Tokens3(e)
    ensures EstimateTokens(After2(e)) == Tokens4(e) && EstimateTokens(Early(e)) == TokensEarly(e)
  {
    hide HistoryBytes, Pad;
    var h, n := e.prompts.summaryHeader, e.prompts.emptyTurnNudge;
    SizeOf4("s", Pad(Header(e) + 100), "u", Pad(40), User, Assistant, User, Assistant);
    BytesSnoc(Seeds(e), User, "t");
    SizeOf4("s", h + "1", Pad(40), "t", User, User, Assistant, User);
    SizeOf2(After1(e), e.empty, n);
    SizeOf2(Grown1(e), e.empty, n);
    SizeOf4("s", h + "2", e.empty, n, User, User, Assistant, User);
    assert Early(e) == [User1("s"), User1(h + "2"), Says(e.empty), User1(n)];
    SizeOf2(Early(e), e.empty, n);
  }

  lemma SizeOf2(msgs: seq<Message>, a: string, b: string)
    ensures HistoryBytes(msgs + [Says(a), User1(b)]) == HistoryBytes(msgs) + |a| + |b|
  {
    hide HistoryBytes;
    BytesSnoc(msgs, Assistant, a);
    BytesSnoc(msgs + [Says(a)], User, b);
    assert msgs + [Says(a), User1(b)] == msgs + [Says(a)] + [User1(b)];
  }

  lemma SizeOf4(a: string, b: string, c: string, d: string, ra: Role, rb: Role, rc: Role, rd: Role)
    ensures HistoryBytes([TextMessage(ra, a), TextMessage(rb, b), TextMessage(rc, c), TextMessage(rd, d)]) ==
            |a| + |b| + |c| + |d|
  {
    hide HistoryBytes;
    NoBytes();
    var m1 := [TextMessage(ra, a)];
    BytesSnoc([], ra, a);
    assert [] + m1 == m1;
    BytesSnoc(m1, rb, b);
    var m2 := m1 + [TextMessage(rb, b)];
    BytesSnoc(m2, rc, c);
    var m3 := m2 + [TextMessage(rc, c)];
    BytesSnoc(m3, rd, d);
    assert m3 + [TextMessage(rd, d)] ==
           [TextMessage(ra, a), TextMessage(rb, b), TextMessage(rc, c), TextMessage(rd, d)];
  }

  // ----- The cuts -----

  lemma {:induction false} NothingPending(msgs: seq<Message>, from: nat, i: nat)
    requires Plain(msgs) && from <= i <= |msgs|
    ensures Pending(msgs, from, i) == {}
  {
    if i > from {
      NothingPending(msgs, from, i - 1);
    }
  }

  /** Behind a task the history is cut at its last assistant turn that no nudge comes before. */
  lemma CutAt(p: Prompts, msgs: seq<Message>, at: nat)
    requires Plain(msgs) && 2 < at < |msgs| && msgs[0] == User1("s") && msgs[at].role.Assistant?
    requires !(p.summaryHeader <= "s") && !IsHarnessPrompt(p, msgs[at - 1])
    requires forall i :: at < i < |msgs| && msgs[i].role.Assistant? ==> IsHarnessPrompt(p, msgs[i - 1])
    ensures SummaryCut(p, msgs) == Cut(1, at)
  {
    hide LatestCut, Pending, IsHarnessPrompt;
    NothingPending(msgs, 1, at);
    assert PlainText([Text("s")]) == "s" by {
      assert [Text("s")][1..] == [];
    }
    assert SystemPrefix(msgs, 0) == 0 && !IsSummaryMessage(p, msgs[0]);
    assert CanCut(p, msgs, 1, at);
    var last := LatestCut(p, msgs, 1, |msgs|);
    assert last >= at;
  }

  lemma NoHarness(p: Prompts, s: string, role: Role)
    requires NoPrompt(p, s)
    ensures !IsHarnessPrompt(p, TextMessage(role, s))
  {
    assert [Text(s)][1..] == [];
    assert PlainText([Text(s)]) == s;
  }

  lemma NudgeIsHarness(p: Prompts)
    ensures IsHarnessPrompt(p, User1(p.emptyTurnNudge))
  {
    assert [Text(p.emptyTurnNudge)][1..] == [];
    assert PlainText([Text(p.emptyTurnNudge)]) == p.emptyTurnNudge;
  }

  lemma Cuts(e: Setting)
    requires Fits(e)
    ensures Plain(History(e)) && Plain(After1(e)) && Plain(Grown1(e)) && Plain(Grown2(e)) && Plain(After2(e)) &&
            Plain(Early(e))
    ensures SummaryCut(e.prompts, History(e)) == Cut(1, 3) && Joined(e.prompts, History(e), 1, 3, "1") == After1(e)
    ensures SummaryCut(e.prompts, Grown2(e)) == Cut(1, 4) && Joined(e.prompts, Grown2(e), 1, 4, "2") == After2(e)
    ensures SummaryCut(e.prompts, Grown1(e)) == Cut(1, 4) && Joined(e.prompts, Grown1(e), 1, 4, "2") == Early(e)
  {
    hide SummaryCut, IsHarnessPrompt, Pad;
    NoHarness(e.prompts, "u", User);
    NoHarness(e.prompts, "t", User);
    NudgeIsHarness(e.prompts);
    CutAt(e.prompts, History(e), 3);
    CutAt(e.prompts, Grown2(e), 4);
    CutAt(e.prompts, Grown1(e), 4);
  }

  // ----- The recorded run -----

  function Left1(e: Setting): World {
    Replying(Outside(e).replies, [SECOND])
  }

  function Left2(e: Setting): World {
    Replying([Answer(Padded(e)), Answer(DONE)], [SECOND])
  }

  function Left3(e: Setting): World {
    Replying([Answer(DONE)], [SECOND])
  }

  function Left4(e: Setting): World {
    Replying([Answer(DONE)], [])
  }

  function Left5(e: Setting): World {
    Replying([], [])
  }

  function First(e: Setting, id: string, w: World): State {
    Begin(Cfg(e), id, Seeds(e), User1("t"), [], w)
  }

  /** The recorded run after one turn, after two, and at its end. */
  function Recorded1(e: Setting, id: string): State {
    Nudged(Cfg(e), Said(Cfg(e), Summed(Cfg(e), First(e, id, Outside(e)), After1(e), [FIRST], Left1(e), Tokens0(e),
                                       Tokens1(e)), Padded(e), Left2(e)))
  }

  function Recorded2(e: Setting, id: string): State {
    Nudged(Cfg(e), Said(Cfg(e), Recorded1(e, id), Padded(e), Left3(e)))
  }

  function Recorded3(e: Setting, id: string): State {
    Said(Cfg(e), Summed(Cfg(e), Recorded2(e, id), After2(e), [SECOND], Left4(e), Tokens3(e), Tokens4(e)), DONE,
         Left5(e))
  }

  function FirstTriggers(e: Setting): Triggers {
    NewTriggers(0, Reserve(e), Tokens1(e) + 1 + Reserve(e))
  }

  lemma FirstIs(e: Setting, id: string, w: World)
    ensures var st := First(e, id, w);
            && st.messages == History(e) && st.triggers == FirstTriggers(e) && st.world == w && st.iterations == 0 &&
               st.nudges == 0
            && st.log == [Start([])]
  {
    hide Pad;
    assert LastAssistant(Seeds(e)) == 3;
  }

  /** A summary that answers briefly is the whole pass. */
  lemma OneSummary(e: Setting, replies: seq<Reply>, entries: seq<string>)
    requires replies != [] && replies[0].Answer? && replies[0].resp.text != ""
    requires e.strip(replies[0].resp.text) == replies[0].resp.text
    ensures Summarize(e.strip, e.partial, replies, entries, 0)
            == SummaryPass(SummaryText(replies[0].resp.text), [replies[0]], replies[1..])
  {
    hide SplitPoint;
  }

  lemma SpendOne(r: Reply)
    ensures Spend([r]) == Cost(r)
  {
    assert [r][..0] == [];
    AddZero(Cost(r));
  }

  lemma LiveIsQuiet(w: World)
    requires w.Live? && w.steers == [] && w.cancelIn.None? && w.pool == []
    ensures Quiet(w)
  {
  }

  /** A padded answer grows the history by itself and the nudge. */
  lemma NudgedIs(e: Setting, m: State, resp: Response, w: World)
    requires resp.blocks == [] && resp.text == e.empty != "" && resp.toolCalls == []
    ensures var st := Nudged(Cfg(e), Said(Cfg(e), m, resp, w));
            && st.messages == m.messages + [Says(e.empty), User1(e.prompts.emptyTurnNudge)] && st.world == w
            && st.triggers == m.triggers && st.nudges == m.nudges + 1 && st.iterations == m.iterations + 1
            && st.log == m.log + [Completion(m.iterations + 1, Request(Wire(m.messages, false), false), Answer(resp),
                                             false)]
  {
    hide Wire, Charged, Usage.Add, Pad;
  }

  lemma RecordedTurn1(e: Setting, id: string)
    requires Fits(e)
    ensures Turn(Cfg(e), First(e, id, Outside(e))) == Again(Recorded1(e, id))
    ensures var st := Recorded1(e, id);
            && st.messages == Grown1(e) && st.world == Left2(e) && st.nudges == 1 && st.iterations == 1
            && st.triggers == FirstTriggers(e).(floor := Tokens1(e) + Reserve(e))
            && st.log == [Start([])] + PurposeEvents(1, [FIRST]) + [Compacted(1, Tokens0(e), Tokens1(e), false)]
                         + [Completion(1, Request(After1(e), false), Answer(Padded(e)), false)]
  {
    hide Tokens0, Tokens1, Tokens2, Tokens3, Tokens4, TokensEarly, Reserve, Turn, MaybeCompact, EstimateTokens,
         SummaryCut, Pad, Summarize, Spend, Said, Nudged, Charged, Plain, Quiet, Joined, First, PurposeEvents, Wire;
    var st := First(e, id, Outside(e));
    FirstIs(e, id, Outside(e));
    Sizes(e);
    SizesFit(e);
    Cuts(e);
    SpendOne(FIRST);
    LiveIsQuiet(Outside(e));
    LiveIsQuiet(Left2(e));
    OneSummary(e, Outside(e).summaryReplies, Cfg(e).render(Wire(History(e), false)[1..3]));
    assert [FIRST, SECOND][1..] == [SECOND];
    SummaryBoundary(Cfg(e), st, 1, 3, SummaryPass(SummaryText("1"), [FIRST], [SECOND]), Left1(e), Tokens0(e),
                    Tokens1(e));
    var m := Summed(Cfg(e), st, After1(e), [FIRST], Left1(e), Tokens0(e), Tokens1(e));
    PlainWire(After1(e), false);
    assert Outside(e).replies[1..] == Left2(e).replies;
    AnsweredTurn(Cfg(e), st, m, Padded(e), Left2(e));
    NudgedIs(e, m, Padded(e), Left2(e));
  }

  lemma RecordedTurn2(e: Setting, id: string)
    requires Fits(e)
    ensures Turn(Cfg(e), Recorded1(e, id)) == Again(Recorded2(e, id))
    ensures var st := Recorded2(e, id);
            && st.messages == Grown2(e) && st.world == Left3(e) && st.nudges == 2 && st.iterations == 2
            && st.triggers == FirstTriggers(e).(floor := Tokens1(e) + Reserve(e))
            && st.log == Recorded1(e, id).log + [Completion(2, Request(Grown1(e), false), Answer(Padded(e)), false)]
  {
    hide Tokens0, Tokens1, Tokens2, Tokens3, Tokens4, TokensEarly, Reserve, Turn, EstimateTokens, SummaryCut, Pad,
         Said, Nudged, Charged, Plain, Quiet, Joined, Recorded1, Wire, Compact;
    var st := Recorded1(e, id);
    RecordedTurn1(e, id);
    Sizes(e);
    SizesFit(e);
    Cuts(e);
    LiveIsQuiet(Left2(e));
    LiveIsQuiet(Left3(e));
    PlainWire(Grown1(e), false);
    assert MaybeCompact(Cfg(e), st) == Kept(st);
    assert Left2(e).replies[1..] == Left3(e).replies;
    AnsweredTurn(Cfg(e), st, st, Padded(e), Left3(e));
    NudgedIs(e, st, Padded(e), Left3(e));
  }

  lemma RecordedTurn3(e: Setting, id: string)
    requires Fits(e)
    ensures Turn(Cfg(e), Recorded2(e, id)) == Ended(Recorded3(e, id))
    ensures Recorded3(e, id).log ==
            Recorded2(e, id).log + PurposeEvents(3, [SECOND]) + [Compacted(3, Tokens3(e), Tokens4(e), false)]
                                 + [Completion(3, Request(After2(e), false), Answer(DONE), false)]
  {
    hide Tokens0, Tokens1, Tokens2, Tokens3, Tokens4, TokensEarly, Reserve, Turn, MaybeCompact, EstimateTokens,
         SummaryCut, Pad, Summarize, Spend, Charged, Plain, Quiet, Joined, Recorded2, PurposeEvents, Wire, Usage.Add;
    var st := Recorded2(e, id);
    RecordedTurn2(e, id);
    Sizes(e);
    SizesFit(e);
    Cuts(e);
    LiveIsQuiet(Left3(e));
    LiveIsQuiet(Left5(e));
    OneSummary(e, Left3(e).summaryReplies, Cfg(e).render(Wire(Grown2(e), false)[1..4]));
    assert [SECOND][1..] == [];
    SummaryBoundary(Cfg(e), st, 1, 4, SummaryPass(SummaryText("2"), [SECOND], []), Left4(e), Tokens3(e), Tokens4(e));
    var m := Summed(Cfg(e), st, After2(e), [SECOND], Left4(e), Tokens3(e), Tokens4(e));
    PlainWire(After2(e), false);
    assert Left4(e).replies[1..] == [];
    AnsweredTurn(Cfg(e), st, m, DONE, Left5(e));
  }

  /** Everything the run recorded. */
  function OnRecord(e: Setting): seq<Event> {
    [Start([])] + PurposeEvents(1, [FIRST]) + [Compacted(1, Tokens0(e), Tokens1(e), false)]
    + [Completion(1, Request(After1(e), false), Answer(Padded(e)), false)]
    + [Completion(2, Request(Grown1(e), false), Answer(Padded(e)), false)]
    + PurposeEvents(3, [SECOND]) + [Compacted(3, Tokens3(e), Tokens4(e), false)]
    + [Completion(3, Request(After2(e), false), Answer(DONE), false)] + [Finalize]
  }

  /** The recorded run is undisturbed and ends well. */
  lemma TheRecordedRun(e: Setting, id: string)
    requires Fits(e)
    ensures Undisturbed(Outside(e)) &&
            Recorded(Cfg(e), id, Seeds(e), User1("t"), Outside(e)) == (Ending(None, Recorded3(e, id)), OnRecord(e))
  {
    hide Turn, Recorded1, Recorded2, Recorded3, First, PurposeEvents, Pad;
    RecordedTurn1(e, id);
    RecordedTurn2(e, id);
    RecordedTurn3(e, id);
    RunOf3(e, First(e, id, Outside(e)), Recorded1(e, id), Recorded2(e, id), Recorded3(e, id));
    FirstBegins(e, id);
  }

  lemma FirstBegins(e: Setting, id: string)
    ensures First(e, id, Outside(e)) == Begin(Cfg(e), id, Seeds(e), User1("t"), Outside(e).tools, Outside(e))
  {
    hide Begin;
  }

  lemma RunOf3(e: Setting, a: State, b: State, c: State, d: State)
    requires Turn(Cfg(e), a) == Again(b) && Turn(Cfg(e), b) == Again(c) && Turn(Cfg(e), c) == Ended(d)
    ensures Run(Cfg(e), a) == Ending(None, d)
  {
    hide Turn;
    assert Run(Cfg(e), c) == Ending(None, d);
    assert Run(Cfg(e), b) == Ending(None, d);
  }

  // ----- The resumed run -----

  function Step(text: Response, after: Option<seq<Message>>): ReplayStep {
    ReplayStep(Answer(text), [], after)
  }

  function Steps(e: Setting): seq<ReplayStep> {
    [Step(Padded(e), Some(After1(e))), Step(Padded(e), None), Step(DONE, Some(After2(e)))]
  }

  function Client(e: Setting): Replay {
    Replay(Steps(e), 0, [], 0, {}, false, false, [[FIRST], [SECOND]], 0)
  }

  function Resume0(e: Setting): Resumed {
    Resumed(Client(e), [Request(After1(e), false), Request(Grown1(e), false), Request(After2(e), false)], ZERO_USAGE,
    false, false, {}, {}, [])
  }

  lemma OnePurpose(step: nat, r: Reply)
    ensures PurposeEvents(step, [r]) == [Completion(step, Request([], false), r, true)]
  {
  }

  /** Reading a summary and its Compaction. */
  lemma ScanSummary(l: seq<Event>, step: nat, r: Reply, before: nat, after: nat)
    requires r.Answer? && Scan(l).open == []
    ensures Scan(l + PurposeEvents(step, [r]) + [Compacted(step, before, after, false)])
            == Scan(l).(summaries := Scan(l).summaries + [[r]], compaction := true)
  {
    hide Scan;
    OnePurpose(step, r);
    ScanSnoc(l, Completion(step, Request([], false), r, true));
    assert [] + [r] == [r];
    ScanSnoc(l + PurposeEvents(step, [r]), Compacted(step, before, after, false));
  }

  lemma ScanAnswer(l: seq<Event>, step: nat, req: Request, resp: Response)
    requires Scan(l).open == [] && Scan(l).pending == []
    ensures Scan(l + [Completion(step, req, Answer(resp), false)])
            == Scan(l).(responses := Scan(l).responses +
                        [Step(resp, if Scan(l).compaction then Some(req.messages) else None)],
                        compaction := false)
  {
    hide Scan;
    ScanSnoc(l, Completion(step, req, Answer(resp), false));
  }

  lemma NothingOpen(steps: seq<ReplayStep>, summaries: seq<seq<Reply>>)
    ensures var s := Scanned(steps, [], false, [], [], summaries, []); Flush(s) == s && Flush(Flush(s)) == s
  {
  }

  lemma RecordScans(e: Setting)
    ensures Flush(Scan(OnRecord(e))) == Scanned(Steps(e), [], false, [], [], [[FIRST], [SECOND]], [])
  {
    hide Scan, Flush, Pad, PurposeEvents, After1, Grown1, After2, Padded, Tokens0, Tokens1, Tokens3, Tokens4;
    NothingOpen(Steps(e), [[FIRST], [SECOND]]);
    ScanStart([]);
    var l0 := [Start([])];
    ScanSummary(l0, 1, FIRST, Tokens0(e), Tokens1(e));
    var l2 := l0 + PurposeEvents(1, [FIRST]) + [Compacted(1, Tokens0(e), Tokens1(e), false)];
    assert Scan(l2) == Scanned([], [], true, [], [], [[FIRST]], []);
    ScanAnswer(l2, 1, Request(After1(e), false), Padded(e));
    var l3 := l2 + [Completion(1, Request(After1(e), false), Answer(Padded(e)), false)];
    ScanAnswer(l3, 2, Request(Grown1(e), false), Padded(e));
    var l4 := l3 + [Completion(2, Request(Grown1(e), false), Answer(Padded(e)), false)];
    assert Scan(l4) == Scanned(Steps(e)[..2], [], false, [], [], [[FIRST]], []);
    ScanSummary(l4, 3, SECOND, Tokens3(e), Tokens4(e));
    var l6 := l4 + PurposeEvents(3, [SECOND]) + [Compacted(3, Tokens3(e), Tokens4(e), false)];
    assert Scan(l6) == Scanned(Steps(e)[..2], [], true, [], [], [[FIRST], [SECOND]], []);
    ScanAnswer(l6, 3, Request(After2(e), false), DONE);
    ScanFinalize(l6 + [Completion(3, Request(After2(e), false), Answer(DONE), false)]);
    assert Steps(e)[..2] + [Step(DONE, Some(After2(e)))] == Steps(e);
  }

  lemma StrictSnoc(l: seq<Event>, ev: Event)
    ensures Strict(l + [ev]) == Strict(l) + if ev.Completion? && !ev.purpose && !ev.reply.Failed? then [ev.req] else []
  {
    assert (l + [ev])[..|l|] == l;
  }

  lemma RecordAsks(e: Setting)
    ensures Strict(OnRecord(e)) == Resume0(e).strict
  {
    hide Strict, Pad;
    OnePurpose(1, FIRST);
    OnePurpose(3, SECOND);
    NothingStrict();
    var l0 := [Start([])];
    StrictSnoc([], Start([]));
    assert [] + [Start([])] == l0;
    StrictSnoc(l0, Completion(1, Request([], false), FIRST, true));
    var l1 := l0 + PurposeEvents(1, [FIRST]);
    StrictSnoc(l1, Compacted(1, Tokens0(e), Tokens1(e), false));
    var l2 := l1 + [Compacted(1, Tokens0(e), Tokens1(e), false)];
    var c1 := Completion(1, Request(After1(e), false), Answer(Padded(e)), false);
    StrictSnoc(l2, c1);
    var c2 := Completion(2, Request(Grown1(e), false), Answer(Padded(e)), false);
    StrictSnoc(l2 + [c1], c2);
    var l4 := l2 + [c1] + [c2];
    StrictSnoc(l4, Completion(3, Request([], false), SECOND, true));
    var l5 := l4 + PurposeEvents(3, [SECOND]);
    StrictSnoc(l5, Compacted(3, Tokens3(e), Tokens4(e), false));
    var l6 := l5 + [Compacted(3, Tokens3(e), Tokens4(e), false)];
    var c3 := Completion(3, Request(After2(e), false), Answer(DONE), false);
    StrictSnoc(l6, c3);
    StrictSnoc(l6 + [c3], Finalize);
    assert OnRecord(e) == l6 + [c3] + [Finalize];
  }

  lemma NothingStrict()
    ensures Strict([]) == []
  {
  }

  lemma RecordResumes(e: Setting)
    ensures NewResume(OnRecord(e)) == Some(Resume0(e))
  {
    hide Scan, Pad, Strict, Flush;
    RecordScans(e);
    RecordAsks(e);
    OnePurpose(1, FIRST);
    OnePurpose(3, SECOND);
  }

  const FREE1 := [Answer(Answers("1", ZERO_USAGE))]
  const FREE2 := [Answer(Answers("2", ZERO_USAGE))]

  function Resumed0(e: Setting, live: World): World {
    Resuming(Resume0(e), live, [])
  }

  function Resumed1(e: Setting, live: World): World {
    Resuming(Resume0(e).(rc := Client(e).(nextSummary := 1), seed := PAID), live, [])
  }

  function Resumed2(e: Setting, live: World): World {
    Resuming(Resume0(e).(rc := Client(e).(nextSummary := 1, idx := 1), seed := PAID), live, [])
  }

  function Resumed3(e: Setting, live: World): World {
    Resuming(Resume0(e).(rc := Client(e).(nextSummary := 2, idx := 1), seed := PAID.Add(PAID)), live, [])
  }

  lemma StripOne(text: string, u: Usage)
    ensures Stripped([Answer(Answers(text, u))]) == [Answer(Answers(text, ZERO_USAGE))]
  {
  }

  /** What the resume client serves: the first summary, the first completion, the second summary, and then nothing. */
  lemma Serves1(e: Setting, live: World, entries: seq<string>)
    requires Fits(e)
    ensures AskSummary(Resumed0(e, live), e.strip, e.partial, entries)
            == (Some(SummaryPass(SummaryText("1"), FREE1, [])), Resumed1(e, live))
  {
    hide Pad, Spend, Stripped;
    StripOne("1", PAID);
    SpendOne(FIRST);
  }

  lemma Serves2(e: Setting, live: World)
    ensures Ask(Resumed1(e, live), Request(After1(e), false)) == (Answer(Padded(e)), Resumed2(e, live))
  {
    hide Pad, TrailingIds;
  }

  lemma Serves3(e: Setting, live: World, entries: seq<string>)
    requires Fits(e)
    ensures AskSummary(Resumed2(e, live), e.strip, e.partial, entries)
            == (Some(SummaryPass(SummaryText("2"), FREE2, [])), Resumed3(e, live))
  {
    hide Pad, Spend, Stripped;
    StripOne("2", PAID);
    SpendOne(SECOND);
  }

  lemma Refuses(e: Setting, live: World)
    ensures Ask(Resumed3(e, live), Request(Early(e), false)).0.Failed?
  {
    hide Pad, TrailingIds, Serve;
    assert |Early(e)| != |Grown1(e)|;
  }

  lemma ResumedTurns(e: Setting, id: string, live: World)
    requires Fits(e) && Quiet(live)
    ensures Run(Cfg(e), First(e, id, Resumed0(e, live))).fault == Some(CompletionFailed)
  {
    hide Tokens0, Tokens1, Tokens2, Tokens3, Tokens4, TokensEarly, Reserve, Turn, MaybeCompact, EstimateTokens,
         SummaryCut, Pad, AskSummary, Ask, Spend, Said, Nudged, Charged, Plain, Quiet, Joined, First, PurposeEvents,
         Wire;
    var st := First(e, id, Resumed0(e, live));
    FirstIs(e, id, Resumed0(e, live));
    Sizes(e);
    SizesFit(e);
    Cuts(e);
    SpendOne(FREE1[0]);
    SpendOne(FREE2[0]);
    ResumesQuietly(e, live);
    Serves1(e, live, Cfg(e).render(Wire(History(e), false)[1..3]));
    Serves2(e, live);
    SummaryBoundary(Cfg(e), st, 1, 3, SummaryPass(SummaryText("1"), FREE1, []), Resumed1(e, live), Tokens0(e),
                    Tokens1(e));
    var m := Summed(Cfg(e), st, After1(e), FREE1, Resumed1(e, live), Tokens0(e), Tokens1(e));
    PlainWire(After1(e), false);
    AnsweredTurn(Cfg(e), st, m, Padded(e), Resumed2(e, live));
    NudgedIs(e, m, Padded(e), Resumed2(e, live));
    var next := Nudged(Cfg(e), Said(Cfg(e), m, Padded(e), Resumed2(e, live)));
    Serves3(e, live, Cfg(e).render(Wire(Grown1(e), false)[1..4]));
    Refuses(e, live);
    SummaryBoundary(Cfg(e), next, 1, 4, SummaryPass(SummaryText("2"), FREE2, []), Resumed3(e, live), Tokens2(e),
                    TokensEarly(e));
    PlainWire(Early(e), false);
    RefusedTurn(Cfg(e), next, Summed(Cfg(e), next, Early(e), FREE2, Resumed3(e, live), Tokens2(e), TokensEarly(e)));
    assert Run(Cfg(e), next).fault == Some(CompletionFailed);
  }

  lemma ResumesQuietly(e: Setting, live: World)
    requires Quiet(live)
    ensures Quiet(Resumed0(e, live)) && Quiet(Resumed1(e, live)) && Quiet(Resumed2(e, live)) && Quiet(Resumed3(e, live))
  {
    hide Drain, Cancelled, PoolExhausted;
    QuietOver(Resume0(e), live);
    QuietOver(Resumed1(e, live).rs, live);
    QuietOver(Resumed2(e, live).rs, live);
    QuietOver(Resumed3(e, live).rs, live);
  }

  lemma QuietOver(rs: Resumed, live: World)
    requires Quiet(live)
    ensures Quiet(Resuming(rs, live, []))
  {
  }

  /** An undisturbed run that ends well, and whose complete record resumes, over any world that lets it go on, into a
      failed completion: the resumed run forgets that its first summary was paid for. */
  lemma ForgettingFails(e: Setting, id: string, id': string, live: World)
    requires Fits(e) && Quiet(live)
    ensures Undisturbed(Outside(e))
    ensures var (run, rec) := Recorded(Cfg(e), id, Seeds(e), User1("t"), Outside(e));
            && run.fault == None && NewResume(rec).Some?
            && Run(Cfg(e), Begin(Cfg(e), id', Seeds(e), User1("t"), [], Resuming(NewResume(rec).value, live, []))).fault
               == Some(CompletionFailed)
  {
    hide Run, Begin, Recorded3, NewResume, Pad, Quiet;
    TheRecordedRun(e, id);
    RecordResumes(e);
    ResumedTurns(e, id', live);
  }
}
