/** History compaction: stubs, summaries and triggers
    (agent/compact.go, agent/compactor.go, agent/summarize.go, agent/runner.go:551-635). */
module Compaction {

  import opened Decimal
  import opened Chat
  import opened Spill
  import opened Pairing

  // ----- Stub compaction -----

  const COMPACT_RECENT_TOOL_RESULTS := 4

  const STUB_HEAD := "[tool result pruned"
  const ERRORED_STUB_HEAD := "[errored tool result pruned"

  predicate IsCompactStub(content: string) {
    STUB_HEAD <= content || ERRORED_STUB_HEAD <= content
  }

  /** The stub's tail: name, size and, for a spilled result, its ref. */
  function StubTail(name: string, origBytes: int, spillRef: string): string {
    " to save context: " + (if name == "" then "tool" else name) + ", " + Itoa(origBytes) + " bytes" +
    (if spillRef != "" then "; full output spilled: " + spillRef + "]" else "]")
  }

  function CompactStub(name: string, origBytes: int, isErr: bool, spillRef: string): string {
    (if isErr then ERRORED_STUB_HEAD else STUB_HEAD) + StubTail(name, origBytes, spillRef)
  }

  lemma StubIsStub(name: string, origBytes: int, isErr: bool, spillRef: string)
    ensures IsCompactStub(CompactStub(name, origBytes, isErr, spillRef))
  {
  }

  /** The stub a result would get: its size is the original one when the result was spilled. */
  function StubFor(m: Message, size: nat, names: map<string, string>): string {
    var name := if m.toolCallId in names then names[m.toolCallId] else "";
    match ParseSpillMarker(PlainText(m.content))
    case Some((ref, spilled)) => CompactStub(name, spilled, m.isError, ref)
    case None => CompactStub(name, size, m.isError, "")
  }

  /** A result that is not a stub yet and is larger than the stub it would get. */
  predicate WorthStubbing(m: Message, sent: Message, names: map<string, string>) {
    !IsCompactStub(PlainText(m.content)) && SentBytes(sent.content) > |StubFor(m, SentBytes(sent.content), names)|
  }

  function StubMessage(m: Message, sent: Message, names: map<string, string>): Message {
    if WorthStubbing(m, sent, names) then m.(content := [Text(StubFor(m, SentBytes(sent.content), names))]) else m
  }

  /** Number of tool results at or after position i. */
  function ResultsFrom(msgs: seq<Message>, i: nat): nat
    requires i <= |msgs|
    decreases |msgs| - i
  {
    if i == |msgs| then 0 else (if msgs[i].role.ToolResult? then 1 else 0) + ResultsFrom(msgs, i + 1)
  }

  /** Message i is a tool result followed by at least `k` more. */
  predicate Prunable(msgs: seq<Message>, k: nat, i: nat)
    requires i < |msgs|
  {
    msgs[i].role.ToolResult? && ResultsFrom(msgs, i + 1) >= k
  }

  function StubbedAt(msgs: seq<Message>, sent: seq<Message>, k: nat, names: map<string, string>, i: nat): Message
    requires |sent| == |msgs| && i < |msgs|
  {
    if Prunable(msgs, k, i) then StubMessage(msgs[i], sent[i], names) else msgs[i]
  }

  function Stubbed(msgs: seq<Message>, sent: seq<Message>, k: nat, names: map<string, string>): (r: seq<Message>)
    requires |sent| == |msgs|
    ensures |r| == |msgs|
    ensures forall i :: 0 <= i < |r| ==> r[i] == StubbedAt(msgs, sent, k, names, i)
  {
    seq(|msgs|, i requires 0 <= i < |msgs| => StubbedAt(msgs, sent, k, names, i))
  }

  /** The positions a pass replaces. */
  function PrunedAt(msgs: seq<Message>, sent: seq<Message>, k: nat, names: map<string, string>): set<nat>
    requires |sent| == |msgs|
  {
    set i: nat | i < |msgs| && Prunable(msgs, k, i) && WorthStubbing(msgs[i], sent[i], names)
  }

  /** The positions of the tool results of msgs, in order. */
  method ToolIndexes(msgs: seq<Message>) returns (toolIdx: seq<nat>)
    ensures |toolIdx| == ResultsFrom(msgs, 0)
    ensures forall j :: 0 <= j < |toolIdx| ==> IsResultAt(msgs, toolIdx[j], |toolIdx| - j - 1)
    ensures forall i: nat :: i < |msgs| && msgs[i].role.ToolResult? ==> i in toolIdx
  {
    toolIdx := [];
    for i := 0 to |msgs|
      invariant |toolIdx| + ResultsFrom(msgs, i) == ResultsFrom(msgs, 0)
      invariant forall j :: 0 <= j < |toolIdx| ==> IsResultAt(msgs, toolIdx[j], ResultsFrom(msgs, 0) - j - 1)
      invariant forall j: nat :: j < i && msgs[j].role.ToolResult? ==> j in toolIdx
    {
      if msgs[i].role.ToolResult? {
        toolIdx := toolIdx + [i];
      }
    }
  }

  /** Message i is a tool result followed by exactly `later` more. */
  predicate IsResultAt(msgs: seq<Message>, i: nat, later: int) {
    i < |msgs| && msgs[i].role.ToolResult? && ResultsFrom(msgs, i + 1) == later
  }

  /** The first results, up to the last k, are exactly the prunable positions. */
  lemma PrunablePositions(msgs: seq<Message>, toolIdx: seq<nat>, k: nat)
    requires forall j :: 0 <= j < |toolIdx| ==> IsResultAt(msgs, toolIdx[j], |toolIdx| - j - 1)
    requires forall i: nat :: i < |msgs| && msgs[i].role.ToolResult? ==> i in toolIdx
    ensures forall i: nat :: i < |msgs| ==>
              (Prunable(msgs, k, i) <==> i in toolIdx[..if |toolIdx| <= k then 0 else |toolIdx| - k])
  {
    var keepFrom := if |toolIdx| <= k then 0 else |toolIdx| - k;
    forall i: nat | i < |msgs|
      ensures Prunable(msgs, k, i) <==> i in toolIdx[..keepFrom]
    {
      if Prunable(msgs, k, i) {
        var j :| 0 <= j < |toolIdx| && toolIdx[j] == i;
        assert toolIdx[..keepFrom][j] == i;
      }
    }
  }

  /** One candidate: a stub, or the message as it was. */
  method StubCandidate(m: Message, sent: Message, names: map<string, string>) returns (r: Message, pruned: bool)
    ensures r == StubMessage(m, sent, names)
    ensures pruned == WorthStubbing(m, sent, names)
  {
    hide StubFor, IsCompactStub, PlainText, SentBytes;
    r, pruned := m, false;
    var content := PlainText(m.content);
    if !IsCompactStub(content) {
      var size := SentBytes(sent.content);
      var stub := StubFor(m, size, names);
      if size > |stub| {
        r, pruned := m.(content := [Text(stub)]), true;
      }
    }
  }

  /** `compactHistory`: index the results, keep the last recentK, rewrite the others into a copy. */
  method CompactHistory(msgs: seq<Message>, sent: seq<Message>, recentK: int, names: map<string, string>)
      returns (out: seq<Message>, pruned: nat)
    requires |sent| == |msgs|
    ensures out == Stubbed(msgs, sent, Max(0, recentK), names)
    ensures pruned == |PrunedAt(msgs, sent, Max(0, recentK), names)|
  {
    hide StubMessage, WorthStubbing, ResultsFrom, Prunable, HalfStubbed, Stubbed, PrunedAt;
    var k: nat := Max(0, recentK);
    var toolIdx := ToolIndexes(msgs);
    PrunablePositions(msgs, toolIdx, k);
    var keepFrom := if |toolIdx| <= k then 0 else |toolIdx| - k;
    out, pruned := msgs, 0;
    ghost var at: set<nat> := {};
    NothingStubbed(msgs, sent, names);
    assert toolIdx[..0] == [];
    for j := 0 to keepFrom
      invariant pruned == |at| && HalfStubbed(msgs, sent, names, toolIdx[..j], out, at)
    {
      var idx := toolIdx[j];
      assert IsResultAt(msgs, idx, |toolIdx| - j - 1);
      IndexesDiffer(msgs, toolIdx, j);
      assert toolIdx[..j + 1] == toolIdx[..j] + [idx];
      StubOneMore(msgs, sent, names, toolIdx[..j], out, at, idx);
      var r, worth := StubCandidate(out[idx], sent[idx], names);
      out := out[idx := r];
      if worth {
        pruned := pruned + 1;
        at := at + {idx};
      }
    }
    AllStubbed(msgs, sent, names, toolIdx[..keepFrom], out, at, k);
  }

  /** The results at the given positions are rewritten, the others not yet. */
  ghost predicate HalfStubbed(msgs: seq<Message>, sent: seq<Message>, names: map<string, string>, done: seq<nat>,
                              out: seq<Message>, at: set<nat>)
    requires |sent| == |msgs|
  {
    && |out| == |msgs|
    && (forall i: nat :: i < |msgs| ==> out[i] == if i in done then StubMessage(msgs[i], sent[i], names) else msgs[i])
    && (forall i: nat :: i in at <==> i < |msgs| && i in done && WorthStubbing(msgs[i], sent[i], names))
  }

  lemma NothingStubbed(msgs: seq<Message>, sent: seq<Message>, names: map<string, string>)
    requires |sent| == |msgs|
    ensures HalfStubbed(msgs, sent, names, [], msgs, {})
  {
  }

  lemma StubOneMore(msgs: seq<Message>, sent: seq<Message>, names: map<string, string>, done: seq<nat>,
                    out: seq<Message>, at: set<nat>, idx: nat)
    requires |sent| == |msgs| && HalfStubbed(msgs, sent, names, done, out, at) && idx < |msgs| && idx !in done
    ensures |out| == |msgs| && out[idx] == msgs[idx] && idx !in at
    ensures HalfStubbed(msgs, sent, names, done + [idx], out[idx := StubMessage(msgs[idx], sent[idx], names)],
                        if WorthStubbing(msgs[idx], sent[idx], names) then at + {idx} else at)
  {
    hide StubMessage, WorthStubbing;
  }

  lemma AllStubbed(msgs: seq<Message>, sent: seq<Message>, names: map<string, string>, done: seq<nat>,
                   out: seq<Message>, at: set<nat>, k: nat)
    requires |sent| == |msgs| && HalfStubbed(msgs, sent, names, done, out, at)
    requires forall i: nat :: i < |msgs| ==> (Prunable(msgs, k, i) <==> i in done)
    ensures out == Stubbed(msgs, sent, k, names) && at == PrunedAt(msgs, sent, k, names)
  {
    hide StubMessage, WorthStubbing, Prunable;
  }

  lemma IndexesDiffer(msgs: seq<Message>, toolIdx: seq<nat>, j: nat)
    requires forall i :: 0 <= i < |toolIdx| ==> IsResultAt(msgs, toolIdx[i], |toolIdx| - i - 1)
    requires j < |toolIdx|
    ensures toolIdx[j] !in toolIdx[..j]
  {
    forall i | 0 <= i < j ensures toolIdx[i] != toolIdx[j] {
      assert IsResultAt(msgs, toolIdx[i], |toolIdx| - i - 1) && IsResultAt(msgs, toolIdx[j], |toolIdx| - j - 1);
    }
  }

  /** Tool name per call id, the last assistant turn naming an id wins. */
  function ToolNames(msgs: seq<Message>): map<string, string> {
    if msgs == [] then map[]
    else
      var m := msgs[|msgs| - 1];
      var earlier := ToolNames(msgs[..|msgs| - 1]);
      if m.role.Assistant? then CallNames(earlier, m.toolCalls) else earlier
  }

  function CallNames(names: map<string, string>, calls: seq<ToolCall>): map<string, string> {
    if calls == [] then names
    else CallNames(names, calls[..|calls| - 1])[calls[|calls| - 1].id := calls[|calls| - 1].name]
  }

  /** The default compactor's result. */
  function StubHistory(msgs: seq<Message>, accepts: bool): (r: seq<Message>)
    ensures |r| == |msgs|
  {
    Stubbed(msgs, Wire(msgs, accepts), COMPACT_RECENT_TOOL_RESULTS, ToolNames(msgs))
  }

  lemma {:induction false} SkeletonKept(a: seq<Message>, b: seq<Message>)
    requires SameSkeleton(a, b)
    ensures ToolNames(a) == ToolNames(b)
  {
    if a != [] {
      SkeletonKept(a[..|a| - 1], b[..|b| - 1]);
    }
  }

  /** What one position keeps. */
  predicate KeptBy(m: Message, r: Message) {
    r.role == m.role && r.toolCalls == m.toolCalls && r.toolCallId == m.toolCallId && r.isError == m.isError
    && (!m.role.ToolResult? ==> r == m)
  }

  lemma StubbedAtKeeps(msgs: seq<Message>, sent: seq<Message>, k: nat, names: map<string, string>, i: nat)
    requires |sent| == |msgs| && i < |msgs|
    ensures KeptBy(msgs[i], Stubbed(msgs, sent, k, names)[i])
    ensures ResultsFrom(msgs, i + 1) < k ==> Stubbed(msgs, sent, k, names)[i] == msgs[i]
  {
    hide StubFor, WorthStubbing;
  }

  /** Stubbing keeps the length, roles, calls, ids and error marks, every message that is not a tool
      result, and the last K results; so it keeps the pairing. */
  lemma StubKeeps(msgs: seq<Message>, accepts: bool)
    ensures forall i: nat :: i < |msgs| ==> KeptBy(msgs[i], StubHistory(msgs, accepts)[i])
    ensures forall i: nat :: i < |msgs| && ResultsFrom(msgs, i + 1) < COMPACT_RECENT_TOOL_RESULTS
              ==> StubHistory(msgs, accepts)[i] == msgs[i]
    ensures SameSkeleton(msgs, StubHistory(msgs, accepts))
    ensures Paired(msgs) ==> Paired(StubHistory(msgs, accepts))
  {
    hide StubFor, WorthStubbing, StubMessage, StubbedAt, ResultsFrom, Paired, ToolNames;
    forall i: nat | i < |msgs|
      ensures KeptBy(msgs[i], StubHistory(msgs, accepts)[i])
      ensures ResultsFrom(msgs, i + 1) < COMPACT_RECENT_TOOL_RESULTS ==> StubHistory(msgs, accepts)[i] == msgs[i]
    {
      StubbedAtKeeps(msgs, Wire(msgs, accepts), COMPACT_RECENT_TOOL_RESULTS, ToolNames(msgs), i);
    }
    if Paired(msgs) {
      PairedSkeleton(msgs, StubHistory(msgs, accepts));
    }
  }

  lemma {:induction false} ResultsKept(a: seq<Message>, b: seq<Message>, i: nat)
    requires SameSkeleton(a, b) && i <= |a|
    ensures ResultsFrom(a, i) == ResultsFrom(b, i)
    decreases |a| - i
  {
    if i < |a| {
      ResultsKept(a, b, i + 1);
    }
  }

  lemma SingleText(s: string)
    ensures PlainText([Text(s)]) == s && ContentBytes([Text(s)]) == |s| && SentBytes([Text(s)]) == |s|
  {
    assert [Text(s)][1..] == [];
    assert PlainText([]) == "" && ContentBytes([]) == 0 && SentBytes([]) == 0;
    assert s + "" == s;
  }

  /** A replaced message reads as a stub, so it is never replaced again. */
  lemma StubOnce(m: Message, sent: Message, names: map<string, string>)
    requires WorthStubbing(m, sent, names)
    ensures IsCompactStub(PlainText(StubMessage(m, sent, names).content))
  {
    hide ParseSpillMarker, PlainText, SentBytes, CompactStub, IsCompactStub;
    var name := if m.toolCallId in names then names[m.toolCallId] else "";
    SingleText(StubFor(m, SentBytes(sent.content), names));
    match ParseSpillMarker(PlainText(m.content))
    case Some((ref, spilled)) => StubIsStub(name, spilled, m.isError, ref);
    case None => StubIsStub(name, SentBytes(sent.content), m.isError, "");
  }

  lemma SecondPassLeaves(msgs: seq<Message>, sent: seq<Message>, names: map<string, string>, k: nat, accepts: bool,
                         once: seq<Message>, i: nat)
    requires sent == Wire(msgs, accepts) && once == Stubbed(msgs, sent, k, names) && i < |msgs| &&
             SameSkeleton(msgs, once)
    ensures Prunable(once, k, i) ==> !WorthStubbing(once[i], WireMessage(once[i], accepts), names)
  {
    hide StubFor, IsCompactStub, PlainText, SentBytes, ResultsFrom;
    ResultsKept(msgs, once, i + 1);
    if WorthStubbing(msgs[i], sent[i], names) {
      StubOnce(msgs[i], sent[i], names);
    }
  }

  /** A second pass over a stubbed history prunes nothing. */
  lemma StubIsIdempotent(msgs: seq<Message>, accepts: bool)
    ensures var once := StubHistory(msgs, accepts);
            && StubHistory(once, accepts) == once
            && PrunedAt(once, Wire(once, accepts), COMPACT_RECENT_TOOL_RESULTS, ToolNames(once)) == {}
  {
    hide StubFor, WorthStubbing, ResultsFrom, ToolNames, Prunable;
    var once := StubHistory(msgs, accepts);
    StubKeeps(msgs, accepts);
    SkeletonKept(msgs, once);
    forall i: nat | i < |msgs|
      ensures Prunable(once, COMPACT_RECENT_TOOL_RESULTS, i) ==>
                !WorthStubbing(once[i], WireMessage(once[i], accepts), ToolNames(msgs))
    {
      SecondPassLeaves(msgs, Wire(msgs, accepts), ToolNames(msgs), COMPACT_RECENT_TOOL_RESULTS, accepts, once, i);
    }
  }

  /** A tool result that is text only, as sent. */
  predicate TextOnly(blocks: seq<Block>) {
    forall i :: 0 <= i < |blocks| ==> blocks[i].kind.TextBlock? && blocks[i].data == "" && blocks[i].url == ""
  }

  lemma {:induction false} TextOnlyBytes(blocks: seq<Block>)
    requires TextOnly(blocks)
    ensures SentBytes(blocks) == ContentBytes(blocks)
  {
    if blocks != [] {
      TextOnlyBytes(blocks[1..]);
    }
  }

  /** One pruned text-only result loses at least a byte. */
  lemma StubShrinksMessage(m: Message, sent: Message, names: map<string, string>, accepts: bool)
    requires WorthStubbing(m, sent, names) && TextOnly(sent.content) && sent == WireMessage(m, accepts) &&
             m.role.ToolResult?
    ensures MessageBytes(WireMessage(StubMessage(m, sent, names), accepts)) < MessageBytes(sent)
  {
    var stub := StubFor(m, SentBytes(sent.content), names);
    var out := StubMessage(m, sent, names);
    hide StubFor, IsCompactStub, PlainText;
    SingleText(stub);
    TextOnlyBytes(sent.content);
    assert Degraded(out.content, accepts) == out.content;
  }

  /** Pruning text-only results strictly lowers the byte total the triggers read. */
  lemma StubShrinks(msgs: seq<Message>, sent: seq<Message>, k: nat, names: map<string, string>, accepts: bool, n: nat)
    requires sent == Wire(msgs, accepts) && n <= |msgs|
    requires forall i :: i in PrunedAt(msgs, sent, k, names) ==> TextOnly(sent[i].content)
    ensures HistoryBytes(Wire(Stubbed(msgs, sent, k, names), accepts)[..n]) <= HistoryBytes(sent[..n])
    ensures (exists i: nat :: i < n && i in PrunedAt(msgs, sent, k, names)) ==>
              HistoryBytes(Wire(Stubbed(msgs, sent, k, names), accepts)[..n]) < HistoryBytes(sent[..n])
  {
    hide StubFor, WorthStubbing, StubMessage, IsCompactStub, PlainText, SentBytes, MessageBytes, HistoryBytes;
    var out := Wire(Stubbed(msgs, sent, k, names), accepts);
    forall i: nat | i < n
      ensures MessageBytes(out[i]) <= MessageBytes(sent[i])
      ensures i in PrunedAt(msgs, sent, k, names) ==> MessageBytes(out[i]) < MessageBytes(sent[i])
    {
      StubShrinksAt(msgs, sent, k, names, accepts, i);
    }
    BytesBelow(out, sent, n);
  }

  lemma StubShrinksAt(msgs: seq<Message>, sent: seq<Message>, k: nat, names: map<string, string>, accepts: bool, i: nat)
    requires sent == Wire(msgs, accepts) && i < |msgs| &&
             (i in PrunedAt(msgs, sent, k, names) ==> TextOnly(sent[i].content))
    ensures var out := Wire(Stubbed(msgs, sent, k, names), accepts);
            && MessageBytes(out[i]) <= MessageBytes(sent[i])
            && (i in PrunedAt(msgs, sent, k, names) ==> MessageBytes(out[i]) < MessageBytes(sent[i]))
  {
    hide StubFor, IsCompactStub, PlainText, SentBytes, MessageBytes, ResultsFrom;
    if i in PrunedAt(msgs, sent, k, names) {
      StubShrinksMessage(msgs[i], sent[i], names, accepts);
    } else {
      assert Stubbed(msgs, sent, k, names)[i] == msgs[i];
    }
  }

  /** Message by message no larger, so no larger as a whole; and smaller if one of them is. */
  lemma {:induction false} BytesBelow(a: seq<Message>, b: seq<Message>, n: nat)
    requires n <= |a| == |b| && forall i: nat :: i < n ==> MessageBytes(a[i]) <= MessageBytes(b[i])
    ensures HistoryBytes(a[..n]) <= HistoryBytes(b[..n])
    ensures (exists i: nat :: i < n && MessageBytes(a[i]) < MessageBytes(b[i])) ==>
            HistoryBytes(a[..n]) < HistoryBytes(b[..n])
  {
    hide MessageBytes;
    if n > 0 {
      BytesBelow(a, b, n - 1);
      assert a[..n][..n - 1] == a[..n - 1] && b[..n][..n - 1] == b[..n - 1];
    }
  }

  /** A spilled result keeps its way back through any pass: afterwards it is either untouched, so its
      marker still parses, or a stub that ends with the original size and the ref. */
  lemma SpillSurvivesStubbing(m: Message, sent: Message, names: map<string, string>, ref: string, size: int)
      returns (head: string)
    requires ParseSpillMarker(PlainText(m.content)) == Some((ref, size)) && ref != ""
    ensures var after := PlainText(StubMessage(m, sent, names).content);
            || ParseSpillMarker(after) == Some((ref, size))
            || after == head + ", " + Itoa(size) + " bytes" + ("; full output spilled: " + ref + "]")
  {
    hide ParseSpillMarker, PlainText, SentBytes, IsCompactStub;
    var name := if m.toolCallId in names then names[m.toolCallId] else "";
    head := (if m.isError then ERRORED_STUB_HEAD else STUB_HEAD) +
      (" to save context: " + (if name == "" then "tool" else name));
    StubEndsWithRef(name, size, m.isError, ref, head);
    if WorthStubbing(m, sent, names) {
      hide CompactStub;
      SingleText(StubFor(m, SentBytes(sent.content), names));
    }
  }

  lemma StubEndsWithRef(name: string, size: int, isErr: bool, ref: string, head: string)
    requires ref != ""
    requires head == (if isErr then ERRORED_STUB_HEAD else STUB_HEAD) +
             (" to save context: " + (if name == "" then "tool" else name))
    ensures CompactStub(name, size, isErr, ref) ==
            head + ", " + Itoa(size) + " bytes" + ("; full output spilled: " + ref + "]")
  {
    hide Itoa;
    var a, b := (if isErr then ERRORED_STUB_HEAD else STUB_HEAD),
      " to save context: " + (if name == "" then "tool" else name);
    var c := ", " + Itoa(size) + " bytes";
    Regroup(a, b, ", ", Itoa(size), " bytes", "; full output spilled: " + ref + "]");
  }

  lemma Regroup(a: string, b: string, c: string, d: string, e: string, f: string)
    ensures a + (b + c + d + e + f) == a + b + c + d + e + f
  {
  }
}
