/** Summarizing compaction: where the history is cut, how an overflowing summary request is split,
    and what the summary replaces (agent/summarize.go). */
module Summaries {

  import opened Chat
  import opened Pairing

  /** The texts of the prompts the Runner injects; only their identity matters here. */
  datatype Prompts = Prompts(emptyTurnNudge: string, continueText: string, finalizeHead: string, summaryHeader: string)

  predicate IsSummaryMessage(p: Prompts, m: Message) {
    m.role.User? && p.summaryHeader <= PlainText(m.content)
  }

  predicate IsHarnessPrompt(p: Prompts, m: Message) {
    m.role.User? &&
    (var text := PlainText(m.content);
     text == p.emptyTurnNudge || text == p.continueText || p.finalizeHead <= text)
  }

  // ----- The cut -----

  function SystemPrefix(msgs: seq<Message>, i: nat): (from: nat)
    requires i <= |msgs|
    ensures i <= from <= |msgs|
    decreases |msgs| - i
  {
    if i < |msgs| && msgs[i].role.System? then SystemPrefix(msgs, i + 1) else i
  }

  function CallIds(calls: seq<ToolCall>): set<string> {
    set c | c in calls :: c.id
  }

  /** Ids called and not answered in msgs[from..i]. */
  function Pending(msgs: seq<Message>, from: nat, i: nat): set<string>
    requires from <= i <= |msgs|
  {
    if i == from then {}
    else
      var m := msgs[i - 1];
      var called := Pending(msgs, from, i - 1) + CallIds(m.toolCalls);
      if m.role.ToolResult? then called - {m.toolCallId} else called
  }

  /** The history may be cut just before i. */
  predicate CanCut(p: Prompts, msgs: seq<Message>, from: nat, i: nat)
    requires from <= i < |msgs|
  {
    && msgs[i].role.Assistant?
    && Pending(msgs, from, i) == {}
    && i > from
    && !IsHarnessPrompt(p, msgs[i - 1])
    && (i != from + 1 || !IsSummaryMessage(p, msgs[from]))
  }

  /** The latest cut before n, or -1. */
  function LatestCut(p: Prompts, msgs: seq<Message>, from: nat, n: nat): (at: int)
    requires from <= n <= |msgs|
    ensures at == -1 || (from < at < n && CanCut(p, msgs, from, at))
    ensures forall i :: from <= i < n && CanCut(p, msgs, from, i) ==> i <= at
  {
    if n == from then -1
    else if CanCut(p, msgs, from, n - 1) then n - 1
    else LatestCut(p, msgs, from, n - 1)
  }

  datatype Cut = NoCut | Cut(from: nat, at: nat)

  function SummaryCut(p: Prompts, msgs: seq<Message>): (c: Cut)
    ensures c.Cut? ==> 0 < c.from < c.at < |msgs| && msgs[c.from - 1].role.User? && msgs[c.at].role.Assistant?
  {
    var task := SystemPrefix(msgs, 0);
    if task == |msgs| || !msgs[task].role.User? || IsSummaryMessage(p, msgs[task]) then NoCut
    else
      var at := LatestCut(p, msgs, task + 1, |msgs|);
      if at < 0 then NoCut else Cut(task + 1, at)
  }

  /** The scanning loop of `summaryCut`, with its pending-call map. */
  method FindSummaryCut(p: Prompts, msgs: seq<Message>) returns (c: Cut)
    ensures c == SummaryCut(p, msgs)
  {
    var from := 0;
    while from < |msgs| && msgs[from].role.System?
      invariant 0 <= from <= |msgs|
      invariant SystemPrefix(msgs, from) == SystemPrefix(msgs, 0)
    {
      from := from + 1;
    }
    if from == |msgs| || !msgs[from].role.User? || IsSummaryMessage(p, msgs[from]) {
      return NoCut;
    }
    from := from + 1;
    var at := -1;
    var pending: set<string> := {};
    for i := from to |msgs|
      invariant at == LatestCut(p, msgs, from, i)
      invariant pending == Pending(msgs, from, i)
    {
      var m := msgs[i];
      if m.role.Assistant? && pending == {} && i > from && !IsHarnessPrompt(p, msgs[i - 1])
         && (i != from + 1 || !IsSummaryMessage(p, msgs[from])) {
        at := i;
      }
      pending := pending + CallIds(m.toolCalls);
      if m.role.ToolResult? {
        pending := pending - {m.toolCallId};
      }
    }
    c := if at < 0 then NoCut else Cut(from, at);
  }

  /** Every call made in the replaced span is answered inside it, whatever the history looks like. */
  lemma {:induction false} CutLeavesNoCallOpen(msgs: seq<Message>, from: nat, at: nat, j: nat, c: ToolCall)
    requires from <= j < at <= |msgs| && c in msgs[j].toolCalls && c.id !in Pending(msgs, from, at)
    ensures exists r :: j <= r < at && msgs[r].role.ToolResult? && msgs[r].toolCallId == c.id
    decreases at
  {
    var m := msgs[at - 1];
    if m.role.ToolResult? && m.toolCallId == c.id {
    } else {
      CutLeavesNoCallOpen(msgs, from, at - 1, j, c);
    }
  }

  /** In a well-formed history no call is open where a turn starts, so pending calls never move the cut. */
  lemma {:induction false} NothingPendingAtTurn(msgs: seq<Message>, from: nat, s: nat, i: nat)
    requires from <= s <= i <= |msgs| && PairedFrom(msgs, s) && Pending(msgs, from, s) == {}
    requires i < |msgs| ==> !msgs[i].role.ToolResult?
    ensures Pending(msgs, from, i) == {}
    decreases |msgs| - s
  {
    if s < i {
      InsideTurn(msgs, s, i);
      var calls := msgs[s].toolCalls;
      TurnIsAnswered(msgs, from, s, |calls|);
      assert calls[|calls|..] == [];
      NothingPendingAtTurn(msgs, from, s + 1 + |calls|, i);
    }
  }

  lemma {:induction false} TurnIsAnswered(msgs: seq<Message>, from: nat, s: nat, r: nat)
    requires from <= s < |msgs| && Pending(msgs, from, s) == {} && !msgs[s].role.ToolResult?
    requires AnswersAt(msgs, s + 1, msgs[s].toolCalls) && r <= |msgs[s].toolCalls|
    ensures Pending(msgs, from, s + 1 + r) <= CallIds(msgs[s].toolCalls[r..])
    decreases r
  {
    var calls := msgs[s].toolCalls;
    if r == 0 {
      assert calls[0..] == calls;
    } else {
      TurnIsAnswered(msgs, from, s, r - 1);
      assert IsAnswer(msgs[s + 1 + (r - 1)], calls[r - 1]);
      assert calls[r - 1..] == [calls[r - 1]] + calls[r..];
    }
  }

  // ----- What the summary replaces -----

  function SummaryMessage(p: Prompts, text: string): Message {
    TextMessage(User, p.summaryHeader + text)
  }

  function Joined(p: Prompts, msgs: seq<Message>, from: nat, at: nat, text: string): seq<Message>
    requires from <= at <= |msgs|
  {
    msgs[..from] + [SummaryMessage(p, text)] + msgs[at..]
  }

  /** The summarized history, or the history itself when the summary would not shrink it. */
  function Summarized(p: Prompts, msgs: seq<Message>, accepts: bool, from: nat, at: nat, text: string): seq<Message>
    requires from <= at <= |msgs|
  {
    var sent := Wire(msgs, accepts);
    if EstimateTokens(Joined(p, sent, from, at, text)) >= EstimateTokens(sent) then msgs
    else Joined(p, msgs, from, at, text)
  }

  /** A summary keeps the history well formed. */
  lemma SummaryKeepsPairing(p: Prompts, msgs: seq<Message>, accepts: bool, from: nat, at: nat, text: string)
    requires Paired(msgs) && SummaryCut(p, msgs) == Cut(from, at)
    ensures Paired(Summarized(p, msgs, accepts, from, at, text))
  {
    hide SummaryCut, EstimateTokens;
    assert msgs[from - 1].role.User? && msgs[at].role.Assistant? && 0 < from < at < |msgs|;
    PairedSplit(msgs, from - 1);
    assert msgs[from - 1].toolCalls == [];
    BoundaryAfter(msgs, from - 1);
    PairedSplit(msgs, from);
    PairedSplit(msgs, at);
    hide Paired;
    AppendUserTurn(msgs[..from], SummaryMessage(p, text));
    PairedAppend(msgs[..from] + [SummaryMessage(p, text)], msgs[at..]);
  }

  // ----- The summary calls -----

  /** A client's answer to one request. */
  datatype Reply = Answer(resp: Response) | Overflow(err: string) | Failed(err: string)

  datatype SummaryResult = SummaryText(text: string) | TooLong | SummaryFailed

  /** One summarization: its result, the replies it used in call order, and the replies left. */
  datatype SummaryPass = SummaryPass(result: SummaryResult, calls: seq<Reply>, rest: seq<Reply>)

  const SUMMARY_MAX_DEPTH := 3

  function EntryBytes(entries: seq<string>): nat {
    if entries == [] then 0 else EntryBytes(entries[..|entries| - 1]) + |entries[|entries| - 1]|
  }

  lemma {:induction false} EntryBytesPrefix(entries: seq<string>, n: nat)
    requires n <= |entries|
    ensures EntryBytes(entries[..n]) <= EntryBytes(entries)
  {
    if n == |entries| {
      assert entries[..n] == entries;
    } else {
      var m := |entries| - 1;
      assert entries[..m][..n] == entries[..n];
      EntryBytesPrefix(entries[..m], n);
    }
  }

  /** First index whose prefix, that entry included, holds at least half the bytes. */
  function HalfAt(entries: seq<string>, i: nat): (k: nat)
    requires i < |entries|
    ensures k < |entries|
    decreases |entries| - i
  {
    if 2 * EntryBytes(entries[..i + 1]) >= EntryBytes(entries) || i + 1 == |entries| then i else HalfAt(entries, i + 1)
  }

  function SplitPoint(entries: seq<string>): (mid: nat)
    requires |entries| >= 2
    ensures 1 <= mid < |entries|
  {
    var i := HalfAt(entries, 0) + 1;
    if i < |entries| then i else |entries| - 1
  }

  lemma {:induction false} HalfAtSplits(entries: seq<string>, i: nat)
    requires i < |entries| && (i > 0 ==> 2 * EntryBytes(entries[..i]) < EntryBytes(entries))
    ensures var k := HalfAt(entries, i);
            2 * EntryBytes(entries[..k + 1]) >= EntryBytes(entries) &&
              (k > 0 ==> 2 * EntryBytes(entries[..k]) < EntryBytes(entries))
    decreases |entries| - i
  {
    if i + 1 == |entries| {
      assert entries[..i + 1] == entries;
    } else if 2 * EntryBytes(entries[..i + 1]) < EntryBytes(entries) {
      HalfAtSplits(entries, i + 1);
    }
  }

  /** Both halves are non-empty, and the split is where half the bytes are reached: the left half holds
      at least half of them unless the last entry alone tips it, and without its own last entry less than half. */
  lemma SplitIsBalanced(entries: seq<string>)
    requires |entries| >= 2
    ensures var mid := SplitPoint(entries);
            && 1 <= mid < |entries|
            && (mid > 1 ==> 2 * EntryBytes(entries[..mid - 1]) < EntryBytes(entries))
            && (mid < |entries| - 1 ==> 2 * EntryBytes(entries[..mid]) >= EntryBytes(entries))
  {
    hide EntryBytes, HalfAt;
    HalfAtSplits(entries, 0);
    var k := HalfAt(entries, 0);
    if k + 1 == |entries| && k > 1 {
      EntryBytesPrefix(entries[..k], k - 1);
      assert entries[..k][..k - 1] == entries[..k - 1];
    }
  }

  method FindSplitPoint(entries: seq<string>) returns (mid: nat)
    requires |entries| >= 2
    ensures mid == SplitPoint(entries)
  {
    var total := 0;
    for i := 0 to |entries|
      invariant total == EntryBytes(entries[..i])
    {
      assert entries[..i + 1][..i] == entries[..i];
      total := total + |entries[i]|;
    }
    assert entries[..|entries|] == entries;
    var sum := 0;
    mid := |entries| / 2;
    for i := 0 to |entries|
      invariant sum == EntryBytes(entries[..i])
      invariant i > 0 ==> 2 * sum < total
      invariant i < |entries| ==> HalfAt(entries, i) == HalfAt(entries, 0)
    {
      assert entries[..i + 1][..i] == entries[..i];
      sum := sum + |entries[i]|;
      if sum * 2 >= total {
        mid := if i + 1 < |entries| then i + 1 else |entries| - 1;
        return;
      }
    }
    assert false;
  }

  /** One request: the next reply, its stripped text, an error when that is empty. */
  function SummaryCall(strip: string -> string, replies: seq<Reply>): SummaryPass {
    if replies == [] then SummaryPass(SummaryFailed, [Failed("")], [])
    else
      var r := replies[0];
      match r
      case Answer(resp) =>
        var text := strip(resp.text);
        SummaryPass(if text == "" then SummaryFailed else SummaryText(text), [r], replies[1..])
      case Overflow(_) => SummaryPass(TooLong, [r], replies[1..])
      case Failed(_) => SummaryPass(SummaryFailed, [r], replies[1..])
  }

  /** `summaryRun.summarize`: ask once; on overflow summarize two halves and then their two partial summaries. */
  function Summarize(strip: string -> string, partial: string -> string, replies: seq<Reply>,
                     entries: seq<string>, depth: nat): SummaryPass
    decreases SUMMARY_MAX_DEPTH - depth
  {
    var first := SummaryCall(strip, replies);
    if !first.result.TooLong? || depth >= SUMMARY_MAX_DEPTH || |entries| < 2 then first
    else
      var mid := SplitPoint(entries);
      var left := Summarize(strip, partial, first.rest, entries[..mid], depth + 1);
      if !left.result.SummaryText? then left.(calls := first.calls + left.calls)
      else
        var right := Summarize(strip, partial, left.rest, entries[mid..], depth + 1);
        if !right.result.SummaryText? then right.(calls := first.calls + left.calls + right.calls)
        else
          var whole := Summarize(strip, partial, right.rest,
                                 [partial(left.result.text), partial(right.result.text)], depth + 1);
          whole.(calls := first.calls + left.calls + right.calls + whole.calls)
  }

  lemma OneCall(strip: string -> string, replies: seq<Reply>)
    ensures var pass := SummaryCall(strip, replies);
            && |pass.calls| == 1 && |pass.rest| <= |replies|
            && (pass.result.SummaryText? ==>
                pass.calls[0].Answer? && pass.result.text == strip(pass.calls[0].resp.text))
  {
  }

  function MaxCalls(depth: nat): nat
    decreases SUMMARY_MAX_DEPTH - depth
  {
    if depth >= SUMMARY_MAX_DEPTH then 1 else 1 + 3 * MaxCalls(depth + 1)
  }

  lemma {:induction false} CallsAreBounded(strip: string -> string, partial: string -> string, replies: seq<Reply>,
                                           entries: seq<string>, depth: nat)
    ensures |Summarize(strip, partial, replies, entries, depth).calls| <= MaxCalls(depth)
    decreases SUMMARY_MAX_DEPTH - depth
  {
    hide SplitPoint;
    OneCall(strip, replies);
    hide SummaryCall;
    var first := SummaryCall(strip, replies);
    if first.result.TooLong? && depth < SUMMARY_MAX_DEPTH && |entries| >= 2 {
      var mid := SplitPoint(entries);
      var left := Summarize(strip, partial, first.rest, entries[..mid], depth + 1);
      CallsAreBounded(strip, partial, first.rest, entries[..mid], depth + 1);
      if left.result.SummaryText? {
        var right := Summarize(strip, partial, left.rest, entries[mid..], depth + 1);
        CallsAreBounded(strip, partial, left.rest, entries[mid..], depth + 1);
        if right.result.SummaryText? {
          CallsAreBounded(strip, partial, right.rest,
                          [partial(left.result.text), partial(right.result.text)], depth + 1);
        }
      }
    }
  }

  /** One summarization makes at most 40 model calls, whatever the client answers. */
  lemma AtMostFortyCalls(strip: string -> string, partial: string -> string, replies: seq<Reply>, entries: seq<string>)
    ensures |Summarize(strip, partial, replies, entries, 0).calls| <= 40
  {
    CallsAreBounded(strip, partial, replies, entries, 0);
    assert MaxCalls(3) == 1 && MaxCalls(2) == 4 && MaxCalls(1) == 13 && MaxCalls(0) == 40;
  }

  /** The summary a pass returns is the stripped text of its last call, so the recorded calls alone determine it. */
  lemma {:induction false} LastCallIsTheSummary(strip: string -> string, partial: string -> string, replies: seq<Reply>,
                                                entries: seq<string>, depth: nat)
    ensures var pass := Summarize(strip, partial, replies, entries, depth);
            && pass.calls != []
            && (pass.result.SummaryText? ==>
                  && pass.calls[|pass.calls| - 1].Answer?
                  && pass.result.text == strip(pass.calls[|pass.calls| - 1].resp.text))
            && |pass.rest| <= |replies|
    decreases SUMMARY_MAX_DEPTH - depth
  {
    hide SplitPoint, SummaryCall;
    OneCall(strip, replies);
    var first := SummaryCall(strip, replies);
    if first.result.TooLong? && depth < SUMMARY_MAX_DEPTH && |entries| >= 2 {
      var mid := SplitPoint(entries);
      var left := Summarize(strip, partial, first.rest, entries[..mid], depth + 1);
      LastCallIsTheSummary(strip, partial, first.rest, entries[..mid], depth + 1);
      if left.result.SummaryText? {
        var right := Summarize(strip, partial, left.rest, entries[mid..], depth + 1);
        LastCallIsTheSummary(strip, partial, left.rest, entries[mid..], depth + 1);
        if right.result.SummaryText? {
          LastCallIsTheSummary(strip, partial, right.rest,
                               [partial(left.result.text), partial(right.result.text)], depth + 1);
        }
      }
    }
  }

  /** The spend of a list of replies: the usage of every answered one. */
  function Spend(calls: seq<Reply>): Usage {
    if calls == [] then ZERO_USAGE
    else
      var c := calls[|calls| - 1];
      if c.Answer? then Spend(calls[..|calls| - 1]).Add(c.resp.usage) else Spend(calls[..|calls| - 1])
  }

  function Cost(reply: Reply): Usage {
    if reply.Answer? then reply.resp.usage else ZERO_USAGE
  }

  lemma SpendSnoc(calls: seq<Reply>, c: Reply)
    ensures Spend(calls + [c]) == Spend(calls).Add(Cost(c))
  {
    assert (calls + [c])[..|calls|] == calls;
    AddZero(Spend(calls));
  }

  lemma {:induction false} SpendConcat(a: seq<Reply>, b: seq<Reply>)
    ensures Spend(a + b) == Spend(a).Add(Spend(b))
  {
    hide Spend, Usage.Add;
    if b == [] {
      assert a + b == a;
      NothingSpent();
      AddZero(Spend(a));
    } else {
      var n := |b| - 1;
      SpendConcat(a, b[..n]);
      assert a + b == (a + b[..n]) + [b[n]] && b == b[..n] + [b[n]];
      SpendSnoc(a + b[..n], b[n]);
      SpendSnoc(b[..n], b[n]);
      AddIsAssociative(Spend(a), Spend(b[..n]), Cost(b[n]));
    }
  }

  lemma NothingSpent()
    ensures Spend([]) == ZERO_USAGE
  {
  }
}
