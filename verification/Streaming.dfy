/** Decorated clients (provider/stage_retry.go:88-206, provider/fallback.go:37-79, provider/stage_serialize.go:64-84,
    observe_client.go:57-77, provider/stage_stack.go:35-51, provider/provider.go:487-516): one call of any nesting of
    decorators over leaf clients, with everything that leaves it. Moments are counted; every call of a leaf, every
    look at a context and every sleep takes at least one, so a context may end between any two of them. */
module Streaming {

  import opened Decimal
  import opened Retry

  datatype Delta = Delta(tool: bool, index: nat, text: string)

  /** An error, as far as `Classify` sees it. */
  datatype Fault = Fault(retryable: bool)

  /** A response, tagged with the leaf call that produced it. */
  datatype Reply = Reply(call: nat, toolCalls: nat)

  datatype End = Ok(reply: Reply) | Err(fault: Fault)

  /** A delta that reaches the caller, tagged with the leaf call it comes from. */
  datatype Out = Out(call: nat, delta: Delta)

  datatype Event = Attempt(span: Option<nat>, number: nat, ok: bool) | Completion(id: nat, ok: bool)

  datatype Client =
    | Leaf(parallel: bool)
    | Retrying(inner: Client, cfg: Config, observed: bool, idle: bool)
    | Fallback(members: seq<Client>)
    | Observed(inner: Client)
    | Serialized(inner: Client)
    | Stack(base: Client, next: Client, claims: bool)

  /** A context: its span, and the moment from which it is done. */
  datatype Ctx = Ctx(span: Option<nat>, until: nat)

  datatype LeafRun = LeafRun(deltas: seq<Delta>, fault: Option<Fault>, toolCalls: nat, takes: nat)

  /** What leaves do, when attempts time out, after how many deltas the idle watchdog trips, which sleeps are cut
      short. */
  datatype World = World(leaf: nat -> LeafRun, timeout: nat -> nat, trip: nat -> Option<nat>, sleepFails: nat -> bool)

  datatype State = State(now: nat, calls: nat, spans: nat) {
    function Tick(): State { this.(now := now + 1) }
  }

  /** One finished call. */
  datatype Ran = Ran(st: State, end: End, outs: seq<Out>, events: seq<Event>)

  function Live(ctx: Ctx, st: State): bool {
    st.now < ctx.until
  }

  function Min(a: nat, b: nat): nat {
    if a < b then a else b
  }

  function RunLeaf(w: World, streaming: bool, st: State): Ran {
    var run := w.leaf(st.calls);
    var deltas := if streaming then run.deltas else [];
    Ran(State(st.now + 1 + run.takes, st.calls + 1, st.spans),
        if run.fault.Some? then Err(run.fault.value) else Ok(Reply(st.calls, run.toolCalls)),
        seq(|deltas|, i requires 0 <= i < |deltas| => Out(st.calls, deltas[i])),
        [])
  }

  /** The idle watchdog: deltas after the trip are dropped, and a failure under it is a retryable one. */
  function Gated(w: World, ctx: Ctx, started: nat, run: Ran): Ran {
    var trip := w.trip(started);
    if trip.None? then run
    else
      var kept := run.outs[..Min(trip.value, |run.outs|)];
      if run.end.Err? && Live(ctx, run.st) then run.(st := run.st.Tick(), outs := kept, end := Err(Fault(true)))
      else run.(st := run.st.Tick(), outs := kept)
  }

  /** The serializer drops the deltas of further tool calls. */
  function Kept(outs: seq<Out>): (r: seq<Out>)
    ensures forall o :: o in r ==> o in outs
    ensures outs == [] ==> r == []
  {
    if outs == [] then []
    else
      var o := outs[|outs| - 1];
      Kept(outs[..|outs| - 1]) + if o.delta.tool && o.delta.index != 0 then [] else [o]
  }

  function Call(w: World, streaming: bool, c: Client, ctx: Ctx, st: State): Ran
    decreases c, 2, 0
  {
    match c
    case Leaf(_) => RunLeaf(w, streaming, st)
    case Retrying(_, _, _, _) => Attempts(w, streaming, c, ctx, st, 1)
    case Fallback(members) => Members(w, streaming, c, ctx, st, 0)
    case Observed(inner) =>
      if ctx.span.Some? then Call(w, streaming, inner, ctx, st)
      else
        var run := Call(w, streaming, inner, ctx.(span := Some(st.spans)), st.(spans := st.spans + 1));
        run.(events := run.events + [Completion(st.spans, run.end.Ok?)])
    case Serialized(inner) =>
      var run := Call(w, streaming, inner, ctx, st);
      var end := if run.end.Ok? then Ok(run.end.reply.(toolCalls := Min(1, run.end.reply.toolCalls))) else run.end;
      run.(outs := Kept(run.outs), end := end)
    case Stack(_, next, claims) =>
      if !claims || ctx.span.Some? then Call(w, streaming, next, ctx, st)
      else Call(w, streaming, next, ctx.(span := Some(st.spans)), st.(spans := st.spans + 1))
  }

  /** The attempts of a retry stage from the n-th on: `Do` around one `streamAttempt` each. */
  function Attempts(w: World, streaming: bool, c: Client, ctx: Ctx, st: State, n: nat): Ran
    requires c.Retrying? && n >= 1
    decreases c, 1, MaxAttempts(c.cfg) - n
  {
    var run := OneAttempt(w, streaming, c, ctx, st, n);
    if run.end.Ok? then run
    else
      // An error behind a delivered delta is terminal while the context is live.
      var retryable := if run.outs != [] && Live(ctx, run.st) then false else run.end.fault.retryable;
      var looked := run.st.Tick();
      match Decide(c.cfg, n, retryable, !Live(ctx, looked))
      case Return => run.(st := looked)
      case Ended => run.(st := looked, end := Err(Fault(false)))
      case Again =>
        var slept := looked.Tick();
        if w.sleepFails(slept.now) then
          run.(st := slept, end := if Live(ctx, slept) then run.end else Err(Fault(false)))
        else
          var rest := Attempts(w, streaming, c, ctx, slept, n + 1);
          rest.(outs := run.outs + rest.outs, events := run.events + rest.events)
  }

  function OneAttempt(w: World, streaming: bool, c: Client, ctx: Ctx, st: State, n: nat): Ran
    requires c.Retrying?
    decreases c, 0, 0
  {
    var actx := ctx.(until := Min(ctx.until, w.timeout(st.now)));
    var inner := Call(w, streaming, c.inner, actx, st);
    var run := if streaming && c.idle then Gated(w, ctx, st.now, inner) else inner;
    run.(events := run.events + if c.observed then [Attempt(ctx.span, n, run.end.Ok?)] else [])
  }

  /** The members of a fallback from the i-th on. It panics when built without one. */
  function Members(w: World, streaming: bool, c: Client, ctx: Ctx, st: State, i: nat): Ran
    requires c.Fallback?
    decreases c, 1, |c.members| - i
  {
    if i >= |c.members| then Ran(st, Err(Fault(false)), [], [])
    else
      var run := Call(w, streaming, c.members[i], ctx, st);
      if run.end.Ok? || run.outs != [] || !run.end.fault.retryable || !Live(ctx, run.st) ||
        i + 1 == |c.members| then run
      else
        var rest := Members(w, streaming, c, ctx, run.st.Tick(), i + 1);
        rest.(outs := run.outs + rest.outs, events := run.events + rest.events)
  }

  /** `retryClient.Complete` and `Stream`: the loop with its delivered flag. */
  method RunRetrying(w: World, streaming: bool, c: Client, ctx: Ctx, st: State) returns (run: Ran)
    requires c.Retrying?
    ensures run == Call(w, streaming, c, ctx, st)
  {
    hide Call, OneAttempt;
    var attempt: nat, now := 0, st;
    var outs: seq<Out>, events: seq<Event> := [], [];
    ghost var whole := Attempts(w, streaming, c, ctx, st, 1);
    RetryingIsAttempts(w, streaming, c, ctx, st);
    while true
      invariant 0 <= attempt < MaxAttempts(c.cfg)
      invariant var rest := Attempts(w, streaming, c, ctx, now, attempt + 1);
                whole == rest.(outs := outs + rest.outs, events := events + rest.events)
      decreases MaxAttempts(c.cfg) - attempt
    {
      attempt := attempt + 1;
      run := OneAttempt(w, streaming, c, ctx, now, attempt);
      var delivered := run.outs != [];
      outs, events := outs + run.outs, events + run.events;
      run := run.(outs := outs, events := events);
      if run.end.Ok? {
        return;
      }
      var retryable := run.end.fault.retryable;
      if delivered && Live(ctx, run.st) {
        retryable := false;
      }
      run := run.(st := run.st.Tick());
      match Decide(c.cfg, attempt, retryable, !Live(ctx, run.st)) {
        case Return => return;
        case Ended => return run.(end := Err(Fault(false)));
        case Again =>
          run := run.(st := run.st.Tick());
          if w.sleepFails(run.st.now) {
            return run.(end := if Live(ctx, run.st) then run.end else Err(Fault(false)));
          }
          now := run.st;
      }
    }
  }

  lemma RetryingIsAttempts(w: World, streaming: bool, c: Client, ctx: Ctx, st: State)
    requires c.Retrying?
    ensures Call(w, streaming, c, ctx, st) == Attempts(w, streaming, c, ctx, st, 1)
  {
  }

  /** A call with what was delivered and emitted before it. */
  function Behind(outs: seq<Out>, events: seq<Event>, run: Ran): Ran {
    run.(outs := outs + run.outs, events := events + run.events)
  }

  lemma BehindTwice(o1: seq<Out>, e1: seq<Event>, o2: seq<Out>, e2: seq<Event>, run: Ran)
    ensures Behind(o1, e1, Behind(o2, e2, run)) == Behind(o1 + o2, e1 + e2, run)
  {
    assert o1 + (o2 + run.outs) == o1 + o2 + run.outs;
    assert e1 + (e2 + run.events) == e1 + e2 + run.events;
  }

  lemma BehindNothing(run: Ran)
    ensures Behind([], [], run) == run
  {
  }

  /** `fallsThrough`, together with the delivered flag. */
  predicate FallsThrough(run: Ran, ctx: Ctx) {
    run.end.Err? && run.outs == [] && run.end.fault.retryable && Live(ctx, run.st)
  }

  lemma MembersStep(w: World, streaming: bool, c: Client, ctx: Ctx, st: State, i: nat)
    requires c.Fallback? && i < |c.members|
    ensures var run := Call(w, streaming, c.members[i], ctx, st);
            Members(w, streaming, c, ctx, st, i) ==
            if FallsThrough(run, ctx) && i + 1 < |c.members|
            then Behind(run.outs, run.events, Members(w, streaming, c, ctx, run.st.Tick(), i + 1)) else run
  {
    hide Call;
  }

  /** `fallbackClient.Complete` and `Stream`: the loop over the members. */
  method RunFallback(w: World, streaming: bool, c: Client, ctx: Ctx, st: State) returns (run: Ran)
    requires c.Fallback? && c.members != []
    ensures run == Call(w, streaming, c, ctx, st)
  {
    hide Call, Members, Behind;
    var now, i: nat := st, 0;
    var outs: seq<Out>, events: seq<Event> := [], [];
    FallbackIsMembers(w, streaming, c, ctx, st);
    BehindNothing(Members(w, streaming, c, ctx, st, 0));
    while true
      invariant 0 <= i < |c.members|
      invariant Behind(outs, events, Members(w, streaming, c, ctx, now, i)) == Call(w, streaming, c, ctx, st)
      decreases |c.members| - i
    {
      MembersStep(w, streaming, c, ctx, now, i);
      run := Call(w, streaming, c.members[i], ctx, now);
      if !FallsThrough(run, ctx) || i + 1 == |c.members| {
        run := Behind(outs, events, run);
        return;
      }
      BehindTwice(outs, events, run.outs, run.events, Members(w, streaming, c, ctx, run.st.Tick(), i + 1));
      outs, events := outs + run.outs, events + run.events;
      now, i := run.st.Tick(), i + 1;
    }
  }

  lemma FallbackIsMembers(w: World, streaming: bool, c: Client, ctx: Ctx, st: State)
    requires c.Fallback?
    ensures Call(w, streaming, c, ctx, st) == Members(w, streaming, c, ctx, st, 0)
  {
  }

  // ----- Deltas come from one attempt -----

  /** Every delta is of one leaf call, made during this call, and on success it is the call that answered. */
  predicate SingleAttempt(from: State, run: Ran) {
    && from.calls <= run.st.calls
    && (run.end.Ok? ==> from.calls <= run.end.reply.call < run.st.calls)
    && (forall i :: 0 <= i < |run.outs| ==>
        from.calls <= run.outs[i].call < run.st.calls && run.outs[i].call == run.outs[0].call)
    && (run.end.Ok? && run.outs != [] ==> run.outs[0].call == run.end.reply.call)
  }

  /** Whatever the decorators, all deltas that reach the caller come from a single attempt of a single member. */
  lemma {:induction false} DeltasOfOneAttempt(w: World, streaming: bool, c: Client, ctx: Ctx, st: State)
    ensures SingleAttempt(st, Call(w, streaming, c, ctx, st))
    decreases c, 2, 0
  {
    match c
    case Leaf(_) =>
    case Retrying(_, _, _, _) => AttemptsAreSingle(w, streaming, c, ctx, st, 1);
    case Fallback(_) => MembersAreSingle(w, streaming, c, ctx, st, 0);
    case Observed(inner) =>
      DeltasOfOneAttempt(w, streaming, inner, ctx, st);
      DeltasOfOneAttempt(w, streaming, inner, ctx.(span := Some(st.spans)), st.(spans := st.spans + 1));
    case Serialized(inner) =>
      DeltasOfOneAttempt(w, streaming, inner, ctx, st);
      KeptIsSingle(st, Call(w, streaming, inner, ctx, st), Call(w, streaming, c, ctx, st));
    case Stack(_, next, _) =>
      DeltasOfOneAttempt(w, streaming, next, ctx, st);
      DeltasOfOneAttempt(w, streaming, next, ctx.(span := Some(st.spans)), st.(spans := st.spans + 1));
  }

  lemma KeptIsSingle(st: State, run: Ran, kept: Ran)
    requires SingleAttempt(st, run) && kept.outs == Kept(run.outs) && kept.st == run.st
    requires kept.end.Ok? <==> run.end.Ok?
    requires kept.end.Ok? ==> kept.end.reply.call == run.end.reply.call
    ensures SingleAttempt(st, kept)
  {
    forall i | 0 <= i < |kept.outs| ensures run.outs != [] && kept.outs[i].call == run.outs[0].call {
      assert kept.outs[i] in run.outs;
    }
  }

  lemma {:induction false} AttemptsAreSingle(w: World, streaming: bool, c: Client, ctx: Ctx, st: State, n: nat)
    requires c.Retrying? && n >= 1
    ensures SingleAttempt(st, Attempts(w, streaming, c, ctx, st, n))
    decreases c, 1, MaxAttempts(c.cfg) - n
  {
    hide Call, OneAttempt, SingleAttempt;
    OneAttemptIsSingle(w, streaming, c, ctx, st, n);
    var run := OneAttempt(w, streaming, c, ctx, st, n);
    if run.end.Err? {
      var looked := run.st.Tick();
      EndIsFree(st, run);
      var retryable := if run.outs != [] && Live(ctx, run.st) then false else run.end.fault.retryable;
      if Decide(c.cfg, n, retryable, !Live(ctx, looked)).Again? && !w.sleepFails(looked.Tick().now) {
        assert run.outs == [];
        AttemptsAreSingle(w, streaming, c, ctx, looked.Tick(), n + 1);
        SilentThenSingle(st, run, looked.Tick(), Attempts(w, streaming, c, ctx, looked.Tick(), n + 1));
      }
    }
  }

  lemma OneAttemptIsSingle(w: World, streaming: bool, c: Client, ctx: Ctx, st: State, n: nat)
    requires c.Retrying?
    ensures SingleAttempt(st, OneAttempt(w, streaming, c, ctx, st, n))
    decreases c, 0, 0
  {
    hide Call;
    var actx := ctx.(until := Min(ctx.until, w.timeout(st.now)));
    DeltasOfOneAttempt(w, streaming, c.inner, actx, st);
  }

  /** A failure may be replaced by another, later. */
  lemma EndIsFree(st: State, run: Ran)
    requires SingleAttempt(st, run) && run.end.Err?
    ensures forall now: nat, fault: Fault :: SingleAttempt(st, run.(st := run.st.(now := now), end := Err(fault)))
    ensures forall now: nat :: SingleAttempt(st, run.(st := run.st.(now := now)))
  {
  }

  lemma SilentThenSingle(st: State, run: Ran, next: State, rest: Ran)
    requires SingleAttempt(st, run) && run.outs == [] && next.calls == run.st.calls && SingleAttempt(next, rest)
    ensures SingleAttempt(st, rest.(outs := run.outs + rest.outs, events := run.events + rest.events))
  {
    assert run.outs + rest.outs == rest.outs;
  }

  lemma {:induction false} MembersAreSingle(w: World, streaming: bool, c: Client, ctx: Ctx, st: State, i: nat)
    requires c.Fallback?
    ensures SingleAttempt(st, Members(w, streaming, c, ctx, st, i))
    decreases c, 1, |c.members| - i
  {
    hide Call;
    if i < |c.members| {
      DeltasOfOneAttempt(w, streaming, c.members[i], ctx, st);
      MembersAreSingle(w, streaming, c, ctx, Call(w, streaming, c.members[i], ctx, st).st.Tick(), i + 1);
    }
  }

  // ----- Who owns the span -----

  /** Attempts only, all of the one span, and no span minted. */
  predicate AllOf(span: Option<nat>, events: seq<Event>) {
    forall i :: 0 <= i < |events| ==> events[i].Attempt? && events[i].span == span
  }

  /** A call that enters with a span emits no Completion, and its Attempts carry that span. */
  lemma {:induction false} ClaimedCallIsSilent(w: World, streaming: bool, c: Client, ctx: Ctx, st: State)
    requires ctx.span.Some?
    ensures var run := Call(w, streaming, c, ctx, st); AllOf(ctx.span, run.events) && run.st.spans == st.spans
    decreases c, 2, 0
  {
    match c
    case Leaf(_) =>
    case Retrying(_, _, _, _) => ClaimedAttempts(w, streaming, c, ctx, st, 1);
    case Fallback(_) => ClaimedMembers(w, streaming, c, ctx, st, 0);
    case Observed(inner) => ClaimedCallIsSilent(w, streaming, inner, ctx, st);
    case Serialized(inner) => ClaimedCallIsSilent(w, streaming, inner, ctx, st);
    case Stack(_, next, _) => ClaimedCallIsSilent(w, streaming, next, ctx, st);
  }

  lemma {:induction false} ClaimedAttempts(w: World, streaming: bool, c: Client, ctx: Ctx, st: State, n: nat)
    requires c.Retrying? && n >= 1 && ctx.span.Some?
    ensures var run := Attempts(w, streaming, c, ctx, st, n); AllOf(ctx.span, run.events) && run.st.spans == st.spans
    decreases c, 1, MaxAttempts(c.cfg) - n
  {
    hide Call;
    var actx := ctx.(until := Min(ctx.until, w.timeout(st.now)));
    ClaimedCallIsSilent(w, streaming, c.inner, actx, st);
    var run := OneAttempt(w, streaming, c, ctx, st, n);
    assert AllOf(ctx.span, run.events) && run.st.spans == st.spans;
    hide OneAttempt;
    if run.end.Err? {
      var looked := run.st.Tick();
      var retryable := if run.outs != [] && Live(ctx, run.st) then false else run.end.fault.retryable;
      if Decide(c.cfg, n, retryable, !Live(ctx, looked)).Again? && !w.sleepFails(looked.Tick().now) {
        ClaimedAttempts(w, streaming, c, ctx, looked.Tick(), n + 1);
      }
    }
  }

  lemma {:induction false} ClaimedMembers(w: World, streaming: bool, c: Client, ctx: Ctx, st: State, i: nat)
    requires c.Fallback? && ctx.span.Some?
    ensures var run := Members(w, streaming, c, ctx, st, i); AllOf(ctx.span, run.events) && run.st.spans == st.spans
    decreases c, 1, |c.members| - i
  {
    hide Call;
    if i < |c.members| {
      ClaimedCallIsSilent(w, streaming, c.members[i], ctx, st);
      ClaimedMembers(w, streaming, c, ctx, Call(w, streaming, c.members[i], ctx, st).st.Tick(), i + 1);
    }
  }

  /** Attempts of one span, then its Completion if there is an emitter. */
  predicate OneSpan(span: nat, events: seq<Event>, emits: bool) {
    if emits then
      events != [] && events[|events| - 1].Completion? && events[|events| - 1].id == span &&
        AllOf(Some(span), events[..|events| - 1])
    else AllOf(Some(span), events)
  }

  /** Every stack the provider package builds claims by itself or has an emitter below it that does. */
  predicate Claims(c: Client) {
    c.Observed? || (c.Stack? && (c.claims || c.next.Observed?))
  }

  /** A call that enters an emitter or a stack without a span mints one span, emits at most one Completion, and all
      its Attempts share that span. */
  lemma UnclaimedCallOwnsOneSpan(w: World, streaming: bool, c: Client, ctx: Ctx, st: State)
    requires ctx.span.None? && Claims(c)
    ensures var run := Call(w, streaming, c, ctx, st);
            run.st.spans == st.spans + 1 && OneSpan(st.spans, run.events, c.Observed? || !c.claims)
  {
    var claimed, minted := ctx.(span := Some(st.spans)), st.(spans := st.spans + 1);
    var owner := if c.Stack? && !c.claims then c.next else c;
    var inner := if owner.Observed? then owner.inner else owner.next;
    ClaimedCallIsSilent(w, streaming, inner, claimed, minted);
    var run := Call(w, streaming, inner, claimed, minted);
    assert Call(w, streaming, c, ctx, st) == Call(w, streaming, owner, ctx, st);
    assert (run.events + [Completion(st.spans, run.end.Ok?)])[..|run.events|] == run.events;
  }

  // ----- One retry loop -----

  datatype Options = Options(cfg: Config, observed: bool, idle: bool)

  function Parallel(c: Client): bool {
    match c
    case Leaf(p) => p
    case Retrying(inner, _, _, _) => Parallel(inner)
    case Fallback(members) => members != [] && Parallel(members[0])
    case Observed(inner) => Parallel(inner)
    case Serialized(_) => false
    case Stack(_, next, _) => Parallel(next)
  }

  function Base(c: Client): Client {
    if c.Stack? then c.base else c
  }

  /** `Wrap`: over a stack, it rebuilds one stack from the stack's base. */
  function Wrap(c: Client, o: Options): (r: Client)
    ensures Claims(r)
  {
    var loop := Retrying(Base(c), o.cfg, o.observed, o.idle);
    var stack := if Parallel(loop) then loop else Serialized(loop);
    Stack(Base(c), if o.observed then Observed(stack) else stack, !o.observed)
  }

  function WrapAll(c: Client, os: seq<Options>): Client {
    if os == [] then c else Wrap(WrapAll(c, os[..|os| - 1]), os[|os| - 1])
  }

  /** Any chain of Wraps is the last of them over the client below. */
  lemma {:induction false} ChainIsLastWrap(c: Client, os: seq<Options>)
    requires os != []
    ensures WrapAll(c, os) == Wrap(c, os[|os| - 1])
    decreases |os|
  {
    if |os| > 1 {
      ChainIsLastWrap(c, os[..|os| - 1]);
    }
  }

  /** However often a leaf is wrapped, one call makes at most the last options' attempts. */
  lemma ChainRetriesOnce(w: World, streaming: bool, leaf: Client, os: seq<Options>, ctx: Ctx, st: State)
    requires leaf.Leaf? && os != []
    ensures Call(w, streaming, WrapAll(leaf, os), ctx, st).st.calls <= st.calls + MaxAttempts(os[|os| - 1].cfg)
  {
    hide WrapAll;
    ChainIsLastWrap(leaf, os);
    var o := os[|os| - 1];
    var loop := Retrying(leaf, o.cfg, o.observed, o.idle);
    var claimed, minted := ctx.(span := Some(st.spans)), st.(spans := st.spans + 1);
    LoopIsBounded(w, streaming, loop, ctx, st, 1);
    LoopIsBounded(w, streaming, loop, claimed, minted, 1);
    hide Attempts;
    var stage := if Parallel(loop) then loop else Serialized(loop);
    assert Call(w, streaming, loop, ctx, st) == Attempts(w, streaming, loop, ctx, st, 1);
    assert Call(w, streaming, loop, claimed, minted) == Attempts(w, streaming, loop, claimed, minted, 1);
    assert Call(w, streaming, stage, ctx, st).st == Call(w, streaming, loop, ctx, st).st;
    assert Call(w, streaming, stage, claimed, minted).st == Call(w, streaming, loop, claimed, minted).st;
    var emitter := Observed(stage);
    assert ctx.span.Some? ==> Call(w, streaming, emitter, ctx, st).st == Call(w, streaming, stage, ctx, st).st;
    assert ctx.span.None? ==> Call(w, streaming, emitter, ctx, st).st == Call(w, streaming, stage, claimed, minted).st;
  }

  lemma {:induction false} LoopIsBounded(w: World, streaming: bool, c: Client, ctx: Ctx, st: State, n: nat)
    requires c.Retrying? && c.inner.Leaf? && 1 <= n <= MaxAttempts(c.cfg)
    ensures Attempts(w, streaming, c, ctx, st, n).st.calls <= st.calls + (MaxAttempts(c.cfg) - n) + 1
    decreases MaxAttempts(c.cfg) - n
  {
    var run := OneAttempt(w, streaming, c, ctx, st, n);
    var actx := ctx.(until := Min(ctx.until, w.timeout(st.now)));
    assert Call(w, streaming, c.inner, actx, st) == RunLeaf(w, streaming, st);
    assert run.st.calls == st.calls + 1;
    hide OneAttempt, Call;
    if run.end.Err? && n < MaxAttempts(c.cfg) {
      LoopIsBounded(w, streaming, c, ctx, run.st.Tick().Tick(), n + 1);
    }
  }
}
