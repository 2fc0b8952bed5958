/** Tool-call pairing of a history: every assistant turn's calls are answered, in call order,
    by the tool results that directly follow it (llmkit.go:180-199, agent/runner.go:641-664). */
module Pairing {

  import opened Chat

  predicate IsAnswer(m: Message, c: ToolCall) {
    m.role.ToolResult? && m.toolCallId == c.id && c.id != "" && m.toolCalls == []
  }

  /** The messages from `at` on start with one answer per call, in call order. */
  predicate AnswersAt(h: seq<Message>, at: nat, calls: seq<ToolCall>) {
    at + |calls| <= |h| && forall k :: 0 <= k < |calls| ==> IsAnswer(h[at + k], calls[k])
  }

  predicate Answers(results: seq<Message>, calls: seq<ToolCall>) {
    |results| == |calls| && AnswersAt(results, 0, calls)
  }

  /** From i on, h is a sequence of whole turns, with no orphan result. */
  predicate PairedFrom(h: seq<Message>, i: nat)
    requires i <= |h|
    decreases |h| - i
  {
    i == |h| ||
    (&& !h[i].role.ToolResult?
     && (h[i].toolCalls != [] ==> h[i].role.Assistant?)
     && AnswersAt(h, i + 1, h[i].toolCalls)
     && PairedFrom(h, i + 1 + |h[i].toolCalls|))
  }

  /** A well-formed history. */
  predicate Paired(h: seq<Message>) {
    PairedFrom(h, 0)
  }

  /** What a run may leave behind: whole turns, then at most one tool turn whose results were cut short. */
  ghost predicate Seedable(h: seq<Message>) {
    Paired(h) || exists i, r :: DanglesAt(h, i, r)
  }

  /** h is whole turns up to i, where an assistant turn has only its first r results. */
  ghost predicate DanglesAt(h: seq<Message>, i: nat, r: nat) {
    && i < |h|
    && Paired(h[..i])
    && h[i].role.Assistant?
    && r < |h[i].toolCalls|
    && |h| == i + 1 + r
    && Answers(h[i + 1..], h[i].toolCalls[..r])
    && (forall c | c in h[i].toolCalls :: c.id != "")
  }

  lemma {:induction false} PairedPrefix(a: seq<Message>, b: seq<Message>, i: nat)
    requires i <= |a| && PairedFrom(a, i) && PairedFrom(a + b, |a|)
    ensures PairedFrom(a + b, i)
    decreases |a| - i
  {
    if i < |a| {
      PairedPrefix(a, b, i + 1 + |a[i].toolCalls|);
    }
  }

  lemma {:induction false} PairedShift(a: seq<Message>, b: seq<Message>, i: nat)
    requires i <= |b|
    ensures PairedFrom(a + b, |a| + i) == PairedFrom(b, i)
    decreases |b| - i
  {
    if i < |b| {
      var h, j := a + b, |a| + i;
      assert h[j] == b[i];
      var calls := b[i].toolCalls;
      assert forall k {:trigger calls[k]} :: 0 <= k < |calls| && i + 1 + k < |b| ==> h[j + 1 + k] == b[i + 1 + k];
      if i + 1 + |calls| <= |b| {
        PairedShift(a, b, i + 1 + |calls|);
      }
    }
  }

  lemma PairedAppend(a: seq<Message>, b: seq<Message>)
    requires Paired(a) && Paired(b)
    ensures Paired(a + b)
  {
    PairedShift(a, b, 0);
    PairedPrefix(a, b, 0);
  }

  lemma PairedOne(m: Message)
    requires !m.role.ToolResult? && m.toolCalls == []
    ensures Paired([m])
  {
    assert PairedFrom([m], 1);
  }

  lemma InsideTurn(h: seq<Message>, s: nat, i: nat)
    requires s < i <= |h| && AnswersAt(h, s + 1, h[s].toolCalls)
    ensures i < s + 1 + |h[s].toolCalls| ==> h[i].role.ToolResult?
  {
    if i < s + 1 + |h[s].toolCalls| {
      assert IsAnswer(h[s + 1 + (i - s - 1)], h[s].toolCalls[i - s - 1]);
    }
  }

  lemma {:induction false} SplitFrom(h: seq<Message>, s: nat, i: nat)
    requires s <= i <= |h| && PairedFrom(h, s) && (i < |h| ==> !h[i].role.ToolResult?)
    ensures PairedFrom(h[..i], s) && PairedFrom(h, i)
    decreases |h| - s
  {
    if s < i {
      var n := |h[s].toolCalls|;
      InsideTurn(h, s, i);
      SplitFrom(h, s + 1 + n, i);
    }
  }

  /** A history may be cut before any message that is not a tool result. */
  lemma PairedSplit(h: seq<Message>, i: nat)
    requires Paired(h) && i <= |h| && (i < |h| ==> !h[i].role.ToolResult?)
    ensures Paired(h[..i]) && Paired(h[i..]) && PairedFrom(h, i)
  {
    SplitFrom(h, 0, i);
    PairedShift(h[..i], h[i..], 0);
    assert h[..i] + h[i..] == h;
  }

  /** After a message without calls comes a turn boundary. */
  lemma {:induction false} BoundaryAfter(h: seq<Message>, i: nat)
    requires Paired(h) && i < |h| && !h[i].role.ToolResult? && h[i].toolCalls == []
    ensures i + 1 < |h| ==> !h[i + 1].role.ToolResult?
  {
    PairedSplit(h, i);
    assert PairedFrom(h, i + 1);
  }

  /** Pairing reads only roles, calls and ids. */
  predicate SameSkeleton(a: seq<Message>, b: seq<Message>) {
    && |a| == |b|
    && forall i :: 0 <= i < |a| ==>
         a[i].role == b[i].role && a[i].toolCalls == b[i].toolCalls && a[i].toolCallId == b[i].toolCallId
  }

  lemma {:induction false} SkeletonFrom(a: seq<Message>, b: seq<Message>, i: nat)
    requires SameSkeleton(a, b) && i <= |a| && PairedFrom(a, i)
    ensures PairedFrom(b, i)
    decreases |a| - i
  {
    if i < |a| {
      SkeletonFrom(a, b, i + 1 + |a[i].toolCalls|);
    }
  }

  lemma PairedSkeleton(a: seq<Message>, b: seq<Message>)
    requires SameSkeleton(a, b) && Paired(a)
    ensures Paired(b)
  {
    SkeletonFrom(a, b, 0);
  }

  lemma WireKeepsPairing(h: seq<Message>, accepts: bool)
    requires Paired(h)
    ensures Paired(Wire(h, accepts))
  {
    PairedSkeleton(h, Wire(h, accepts));
  }

  /** An assistant turn followed by one result per call is a whole turn. */
  lemma PairedTurn(h: seq<Message>, turn: Message, results: seq<Message>)
    requires Paired(h) && turn.role.Assistant? && Answers(results, turn.toolCalls)
    ensures Paired(h + [turn] + results)
  {
    var t := [turn] + results;
    assert forall k :: 0 <= k < |results| ==> t[1 + k] == results[k];
    assert PairedFrom(t, |t|);
    assert Paired(t);
    PairedAppend(h, t);
    assert h + [turn] + results == h + t;
  }

  lemma AppendUserTurn(h: seq<Message>, m: Message)
    requires Paired(h) && m.role.User? && m.toolCalls == []
    ensures Paired(h + [m])
  {
    PairedOne(m);
    PairedAppend(h, [m]);
  }

  // ----- Continuing a run: trimDanglingToolTurn -----

  /** Index of the last assistant message, or -1. */
  function LastAssistant(h: seq<Message>): (i: int)
    ensures -1 <= i < |h|
    ensures i >= 0 ==> h[i].role.Assistant?
    ensures forall j :: i < j < |h| ==> !h[j].role.Assistant?
  {
    if h == [] then -1
    else if h[|h| - 1].role.Assistant? then |h| - 1
    else LastAssistant(h[..|h| - 1])
  }

  function AnsweredIds(results: seq<Message>): set<string> {
    set m | m in results && m.role.ToolResult? && m.toolCallId != "" :: m.toolCallId
  }

  function Trimmed(seed: seq<Message>): seq<Message> {
    var last := LastAssistant(seed);
    if last < 0 || seed[last].toolCalls == [] then seed
    else if forall c | c in seed[last].toolCalls :: c.id in AnsweredIds(seed[last + 1..]) then seed
    else seed[..last]
  }

  method TrimDanglingToolTurn(seed: seq<Message>) returns (r: seq<Message>)
    ensures r == Trimmed(seed)
  {
    var last := |seed| - 1;
    while last >= 0 && !seed[last].role.Assistant?
      invariant -1 <= last < |seed|
      invariant forall j :: last < j < |seed| ==> !seed[j].role.Assistant?
    {
      last := last - 1;
    }
    if last < 0 || |seed[last].toolCalls| == 0 {
      return seed;
    }
    var answered: set<string> := {};
    var rest := seed[last + 1..];
    for j := 0 to |rest|
      invariant answered == AnsweredIds(rest[..j])
    {
      assert rest[..j + 1] == rest[..j] + [rest[j]];
      if rest[j].role.ToolResult? && rest[j].toolCallId != "" {
        answered := answered + {rest[j].toolCallId};
      }
    }
    assert rest[..|rest|] == rest;
    var calls := seed[last].toolCalls;
    for j := 0 to |calls|
      invariant forall i :: 0 <= i < j ==> calls[i].id in answered
    {
      if calls[j].id !in answered {
        assert calls[j] in calls;
        return seed[..last];
      }
    }
    r := seed;
  }

  /** The last assistant turn of a whole history is answered, so trimming keeps it all. */
  lemma TrimKeepsPaired(seed: seq<Message>)
    requires Paired(seed)
    ensures Trimmed(seed) == seed
  {
    var last := LastAssistant(seed);
    if last >= 0 && seed[last].toolCalls != [] {
      PairedSplit(seed, last);
      var calls := seed[last].toolCalls;
      forall c | c in calls
        ensures c.id in AnsweredIds(seed[last + 1..])
      {
        var k :| 0 <= k < |calls| && calls[k] == c;
        assert IsAnswer(seed[last + 1 + k], calls[k]);
        assert seed[last + 1..][k] == seed[last + 1 + k];
        assert seed[last + 1..][k] in seed[last + 1..];
      }
    }
  }

  predicate Unshadowed(calls: seq<ToolCall>, r: nat, k: nat) {
    r <= k < |calls| && forall j :: 0 <= j < r ==> calls[j].id != calls[k].id
  }

  lemma DanglingAnswers(seed: seq<Message>, i: nat, r: nat)
    requires DanglesAt(seed, i, r)
    ensures LastAssistant(seed) == i
    ensures AnsweredIds(seed[i + 1..]) == set j | 0 <= j < r :: seed[i].toolCalls[j].id
  {
    var calls := seed[i].toolCalls;
    var rest := seed[i + 1..];
    forall j | 0 <= j < r ensures IsAnswer(rest[j], calls[j]) {
      assert IsAnswer(rest[0 + j], calls[..r][j]);
    }
    forall j | i < j < |seed| ensures !seed[j].role.Assistant? {
      assert seed[j] == rest[j - i - 1];
    }
    forall j | 0 <= j < r ensures calls[j].id in AnsweredIds(rest) {
      assert rest[j] in rest;
    }
  }

  /** Trimming a seed whose last turn was cut short gives a well-formed history exactly when some
      unanswered call's id is not the id of an answered one. */
  lemma TrimRepairsDangling(seed: seq<Message>, i: nat, r: nat)
    requires DanglesAt(seed, i, r)
    ensures Paired(Trimmed(seed)) <==> exists k: nat :: Unshadowed(seed[i].toolCalls, r, k)
    ensures Paired(Trimmed(seed)) ==> Trimmed(seed) == seed[..i]
  {
    var calls := seed[i].toolCalls;
    var answered := AnsweredIds(seed[i + 1..]);
    DanglingAnswers(seed, i, r);
    NotPaired(seed, i, r);
    if k: nat :| Unshadowed(calls, r, k) {
      assert calls[k] in calls && calls[k].id !in answered;
    } else {
      forall c | c in calls ensures c.id in answered {
        var k :| 0 <= k < |calls| && calls[k] == c;
        if k >= r {
          assert !Unshadowed(calls, r, k);
        }
      }
    }
  }

  lemma NotPaired(seed: seq<Message>, i: nat, r: nat)
    requires DanglesAt(seed, i, r)
    ensures !Paired(seed)
  {
    if Paired(seed) {
      PairedSplit(seed, i);
      assert false;
    }
  }

  lemma DistinctIdsTrim(seed: seq<Message>, i: nat, r: nat)
    requires DanglesAt(seed, i, r)
    requires forall j, k :: 0 <= j < k < |seed[i].toolCalls| ==> seed[i].toolCalls[j].id != seed[i].toolCalls[k].id
    ensures Paired(Trimmed(seed)) && Trimmed(seed) == seed[..i]
  {
    assert Unshadowed(seed[i].toolCalls, r, r);
    TrimRepairsDangling(seed, i, r);
  }

  /** Two calls sharing an id, the second unanswered: the seed passes for answered and keeps its dangling turn. */
  lemma RepeatedIdIsNotTrimmed()
    ensures var call := ToolCall("a", "read", "{}");
            var seed := [TextMessage(User, "t"), Message(Assistant, [], [call, call], "", false),
                         ResultMessage("a", [Text("x")], false)];
            DanglesAt(seed, 1, 1) && Trimmed(seed) == seed && !Paired(Trimmed(seed))
  {
    var call := ToolCall("a", "read", "{}");
    var seed := [TextMessage(User, "t"), Message(Assistant, [], [call, call], "", false),
                 ResultMessage("a", [Text("x")], false)];
    PairedOne(seed[0]);
    assert seed[..1] == [seed[0]];
    assert seed[2..] == [seed[2]] && seed[1].toolCalls[..1] == [call];
    assert DanglesAt(seed, 1, 1);
    TrimRepairsDangling(seed, 1, 1);
    assert seed[1].toolCalls[0].id == seed[1].toolCalls[1].id;
    NotPaired(seed, 1, 1);
    assert LastAssistant(seed) == 1;
    assert seed[2] in seed[2..];
  }
}
