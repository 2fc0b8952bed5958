/** The loop turn by turn (agent/runner.go:366-470): the states in which a run decides whether to stop. */
module LoopTurns {

  import opened Decimal
  import opened Chat
  import opened Worlds
  import opened Loop

  /** The state after k turns, if the run goes that far. */
  function TurnsFrom(cfg: Config, st: State, k: nat): Option<State> {
    if k == 0 then Some(st)
    else
      match TurnsFrom(cfg, st, k - 1)
      case None => None
      case Some(s) => var t := Turn(cfg, s); if t.Again? then Some(t.st) else None
  }

  /** The state in which the token budget is checked after the tools have run. */
  function ToolCheck(cfg: Config, st: State, calls: seq<ToolCall>): State
    requires forall c | c in calls :: c.id != ""
  {
    var (results, w) := ExecuteTools(st.world, calls, cfg.parallel, cfg.accepts, cfg.outputMax);
    Results(st.(world := w), calls, results)
  }

  /** The state at the budget check behind the turn's tools, if the turn gets there. */
  function TurnCheck(cfg: Config, st: State): Option<State> {
    var (exhausted, w) := PoolExhausted(st.world);
    var (done, w1) := Cancelled(w);
    if (cfg.maxIterations >= 0 && st.iterations >= cfg.maxIterations) || OverBudget(cfg, Budgeted(st)) || exhausted ||
      done
    then None
    else
      var m := MaybeCompact(cfg, DrainInto(st.(world := w1)).1);
      if m.NotCompacted? then None
      else
        var c := CompleteOnce(cfg, m.st, false);
        if c.Faulted? || c.resp.toolCalls == [] then None
        else
          ServedCallsAreNamed(cfg, m.st, false);
          var a := ToolCheck(cfg, c.st, c.resp.toolCalls);
          if Cancelled(a.world).0 then None else Some(a)
  }

  /** A run goes on from its k-th turn as it did from its first. */
  lemma {:induction false} RunFrom(cfg: Config, st: State, k: nat)
    requires TurnsFrom(cfg, st, k).Some?
    ensures Run(cfg, TurnsFrom(cfg, st, k).value) == Run(cfg, st)
  {
    hide Turn;
    if k > 0 {
      RunFrom(cfg, st, k - 1);
    }
  }

  /** The turns of a run are its first turn and the turns from there. */
  lemma {:induction false} TurnsShift(cfg: Config, st: State, k: nat)
    requires Turn(cfg, st).Again?
    ensures TurnsFrom(cfg, st, k + 1) == TurnsFrom(cfg, Turn(cfg, st).st, k)
  {
    hide Turn;
    if k > 0 {
      TurnsShift(cfg, st, k - 1);
    } else {
      assert TurnsFrom(cfg, st, 0) == Some(st);
    }
  }

  /** A state in which the run from `from` decides whether to stop: the top of its turn k, or behind that turn's
      tools. */
  ghost predicate Decides(cfg: Config, from: State, k: nat, at: State) {
    var top := TurnsFrom(cfg, from, k);
    top.Some? && (at == top.value || TurnCheck(cfg, top.value) == Some(at))
  }

  lemma DecidesOn(cfg: Config, from: State, k: nat, at: State)
    requires Turn(cfg, from).Again? && Decides(cfg, Turn(cfg, from).st, k, at)
    ensures Decides(cfg, from, k + 1, at)
  {
    hide Turn, TurnCheck, TurnsFrom;
    TurnsShift(cfg, from, k);
  }
}
