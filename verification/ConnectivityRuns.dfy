/** The switching rule over whole runs: evaluation settles, and hysteresis bounds
    the number of switches. */
module ConnectivityRuns {
  import opened Connectivity
  import opened ConnectivityScores

  // ---- evaluation settles ---------------------------------------------------

  /** The sink is there, and its score can be compared. */
  predicate SinkUp(o: Orchestrator) {
    o.metrics[Offline].available && !OfflineQuality(o.weights, o.metrics[Offline]).Nan?
  }

  /** Some bearer scores: a real one is usable, or the sink has not been given a
      preference of minus infinity. */
  ghost predicate SomeScore(o: Orchestrator) {
    !ScoreOf(o, Offline).MinusInfinity? || exists b: Bearer :: !b.Offline? && Usable(o, b)
  }

  lemma BestScoresIff(o: Orchestrator)
    requires SinkUp(o)
    ensures !ScoreOf(o, Best(o)).MinusInfinity? <==> SomeScore(o)
    ensures !SomeScore(o) ==> Best(o).Ethernet? && forall b :: ScoreOf(o, b).MinusInfinity?
    ensures SomeScore(o) ==> Usable(o, Best(o))
  {
    BestIsBest(o, Offline);
    forall b: Bearer ensures AtLeast(ScoreOf(o, Best(o)), ScoreOf(o, b)) {
      BestIsBest(o, b);
    }
    if !ScoreOf(o, Best(o)).MinusInfinity? {
      assert Usable(o, Best(o));
    } else {
      forall b ensures ScoreOf(o, b).MinusInfinity? {
        assert AtLeast(ScoreOf(o, Best(o)), ScoreOf(o, b));
      }
      assert forall b: Bearer | !b.Offline? && Usable(o, b) :: ScoreOf(o, b).Fin?;
    }
  }

  /** The active bearer can be used, and the orchestrator says "offline" exactly when
      it is on the sink. */
  predicate Sound(o: Orchestrator) {
    Usable(o, o.active) && (o.phase.Disconnected? <==> o.active.Offline?)
  }

  /** Evaluating is sound if and only if some bearer scores, or the first one listed
      was active and has just become unavailable: with all scores at minus infinity
      the first one listed is switched to although it cannot be used. */
  lemma EvaluateIsSoundIff(o: Orchestrator)
    requires SinkUp(o)
    ensures Sound(Evaluate(o)) <==> SomeScore(o) || (o.active.Ethernet? && !o.metrics[Ethernet].available)
  {
    BestScoresIff(o);
    SameUsable(o);
  }

  lemma SameUsable(o: Orchestrator)
    ensures forall b :: Usable(Evaluate(o), b) == Usable(o, b)
  {
  }

  lemma EvaluateKeepsInputs(o: Orchestrator)
    ensures var e := Evaluate(o);
            e.metrics == o.metrics && e.weights == o.weights && e.supported == o.supported &&
            e.hysteresis == o.hysteresis && Best(e) == Best(o)
  {
    SameInputsRank(o, Evaluate(o));
  }

  /** A fixpoint in one step: evaluating again on the same observations changes
      nothing, so a switch is never undone or repeated without new metrics, if and
      only if some bearer scores; otherwise it flaps between the first one listed and
      the sink, unless the former is observed although it is not supported. */
  lemma EvaluateIsIdempotentIff(o: Orchestrator)
    requires SinkUp(o)
    ensures Evaluate(Evaluate(o)) == Evaluate(o) <==> SomeScore(o) || o.metrics[Ethernet].available
  {
    EvaluateKeepsInputs(o);
    EvaluateKeepsInputs(Evaluate(o));
    BestScoresIff(o);
    SameInputsRank(o, Evaluate(o));
    EvaluateActive(o);
    EvaluateActive(Evaluate(o));
    if SomeScore(o) || o.metrics[Ethernet].available {
      assert SwitchReason(Evaluate(o)) == "hold";
    }
  }

  /** Where an evaluation ends, by the candidate and the active bearer. */
  lemma EvaluateActive(o: Orchestrator)
    requires SinkUp(o)
    ensures SomeScore(o) && SwitchReason(o) != "hold" ==> Evaluate(o).active == Best(o)
    ensures SomeScore(o) && SwitchReason(o) == "hold" ==> Evaluate(o).active == o.active
    ensures !SomeScore(o) && !o.active.Ethernet? ==> Evaluate(o).active.Ethernet?
    ensures !SomeScore(o) && o.active.Ethernet? ==>
              Evaluate(o).active == if o.metrics[Ethernet].available then Ethernet else Offline
  {
    BestScoresIff(o);
  }

  /** Faults are felt at the next evaluation: a dropped or jammed bearer is left; and
      when all real bearers are down the sink is what remains if and only if it
      scores, or the first bearer listed was the one to drop. */
  lemma FaultsAreFelt(o: Orchestrator)
    requires SinkUp(o)
    ensures Evaluate(InjectFault(o, ForceOffline)).active.Offline? <==>
            !ScoreOf(o, Offline).MinusInfinity? || o.active.Ethernet?
    ensures !o.active.Offline? ==> Evaluate(InjectFault(o, DropActive)).active != o.active
    ensures Evaluate(InjectFault(o, JamWifi)).active != Wifi
  {
    hide Evaluate, Best, ScoreOf;
    ForcedOffline(o);
    if !o.active.Offline? {
      UnavailableIsLeft(InjectFault(o, DropActive), o.active);
    }
    UnavailableIsLeft(InjectFault(o, JamWifi), Wifi);
  }

  lemma ForcedOffline(o: Orchestrator)
    requires SinkUp(o)
    ensures Evaluate(InjectFault(o, ForceOffline)).active.Offline? <==>
            !ScoreOf(o, Offline).MinusInfinity? || o.active.Ethernet?
  {
    hide Evaluate, Best, SwitchReason;
    var f := InjectFault(o, ForceOffline);
    assert ScoreOf(f, Offline) == ScoreOf(o, Offline);
    assert forall b: Bearer | !b.Offline? :: !Usable(f, b);
    EvaluateActive(f);
    EvaluateIsSoundIff(f);
    SameUsable(f);
  }

  lemma UnavailableIsLeft(o: Orchestrator, b: Bearer)
    requires SinkUp(o) && !Of(o.metrics, b).available && (b == o.active || !b.Ethernet?) && !b.Offline?
    ensures Evaluate(o).active != b
  {
    hide Evaluate, Best, SwitchReason;
    EvaluateActive(o);
    EvaluateIsSoundIff(o);
    SameUsable(o);
  }

  /** The worst real bearer is as good as the sink, and better by the hysteresis. */
  predicate AheadOfSink(o: Orchestrator) {
    && AtLeast(Fin(o.weights.availability), ScoreOf(o, Offline))
    && AtLeast(Fin(o.weights.availability), Plus(ScoreOf(o, Offline), o.hysteresis))
  }

  /** The orchestrator never stays offline while a real bearer is usable, provided
      the weights are sane and the gap to the sink is not below the hysteresis. */
  lemma LeavesOffline(o: Orchestrator, b: Bearer)
    requires SinkUp(o) && NonNegative(o.weights) && AheadOfSink(o)
    requires !b.Offline? && Usable(o, b)
    ensures !Evaluate(o).active.Offline?
  {
    QualityLowerBound(o.weights, Of(o.metrics, b));
    BestScoresIff(o);
    BestIsBest(o, b);
  }

  /** With the default weights and any sink preference in 0..1, every hysteresis
      up to 995 leaves the sink. */
  lemma DefaultGap(o: Orchestrator)
    requires SinkUp(o) && o.metrics[Offline].preference.Num? && 0.0 <= o.metrics[Offline].preference.r <= 1.0
    requires o.weights == Weights(10.0, 1.0, 2.0, 1.5, 3.0, 1.0, 0.8, 2.0, 1.5) && o.hysteresis <= 995.0
    ensures NonNegative(o.weights) && AheadOfSink(o)
  {
  }

  /** Exactly when an orchestrator on the sink leaves it: the sink does not score, or
      some usable real bearer is as good as the sink and better by the hysteresis. */
  lemma LeavesOfflineIff(o: Orchestrator)
    requires SinkUp(o) && o.active.Offline?
    ensures !Evaluate(o).active.Offline? <==>
            ScoreOf(o, Offline).MinusInfinity? ||
            exists b: Bearer :: !b.Offline? && Usable(o, b) &&
                                AtLeast(ScoreOf(o, b), ScoreOf(o, Offline)) &&
                                AtLeast(ScoreOf(o, b), Plus(ScoreOf(o, Offline), o.hysteresis))
  {
    BestScoresIff(o);
    BestIsBest(o, Offline);
    forall b: Bearer
      ensures AtLeast(ScoreOf(o, Best(o)), ScoreOf(o, b))
      ensures Best(o).Offline? && !b.Offline? ==> !AtLeast(ScoreOf(o, b), ScoreOf(o, Offline))
    {
      BestIsBest(o, b);
    }
    if !Evaluate(o).active.Offline? && !ScoreOf(o, Offline).MinusInfinity? {
      var b := Best(o);
      assert !b.Offline? && Usable(o, b);
    }
  }

  // ---- runs -----------------------------------------------------------------

  datatype Op =
    | Observe(b: Bearer, m: Metrics)
    | Inject(fault: FaultKind)
    | ClearFaults
    | Eval

  function Step(o: Orchestrator, op: Op): Orchestrator {
    match op
    case Observe(b, m) => UpdateMetrics(o, b, m)
    case Inject(fault) => InjectFault(o, fault)
    case ClearFaults => o.(faults := {})
    case Eval => Evaluate(o)
  }

  function Run(o: Orchestrator, ops: seq<Op>): Orchestrator
    decreases |ops|
  {
    if ops == [] then o else Run(Step(o, ops[0]), ops[1..])
  }

  /** Observations of the sink leave it a score that can be compared. */
  predicate SinkObserved(w: Weights, ops: seq<Op>) {
    forall i | 0 <= i < |ops| :: ops[i].Observe? && ops[i].b.Offline? ==> !OfflineQuality(w, ops[i].m).Nan?
  }

  /** No observation and no injected fault takes the sink down, so the above holds of
      every evaluation in every run. */
  lemma {:induction false} SinkStaysUp(o: Orchestrator, ops: seq<Op>)
    requires SinkUp(o) && SinkObserved(o.weights, ops)
    ensures SinkUp(Run(o, ops))
    decreases |ops|
  {
    if ops != [] {
      SinkStaysUpStep(o, ops[0]) by {
        assert ops[0].Observe? && ops[0].b.Offline? ==> !OfflineQuality(o.weights, ops[0].m).Nan?;
      }
      SinkStaysUp(Step(o, ops[0]), ops[1..]);
    }
  }

  lemma SinkStaysUpStep(o: Orchestrator, op: Op)
    requires SinkUp(o) && (op.Observe? && op.b.Offline? ==> !OfflineQuality(o.weights, op.m).Nan?)
    ensures SinkUp(Step(o, op)) && Step(o, op).weights == o.weights
  {
    hide Best, ScoreOf, SwitchReason;
  }

  // ---- amortised hysteresis -------------------------------------------------

  /** Switches made because another bearer was better. */
  function BetterSwitches(history: seq<Transition>): nat
    decreases |history|
  {
    if history == [] then 0
    else BetterSwitches(history[..|history| - 1]) + if history[|history| - 1].reason == "better_score" then 1 else 0
  }

  function Value(s: Score): real {
    if s.Fin? then s.value else 0.0
  }

  function ActiveScore(o: Orchestrator): real {
    Value(ScoreOf(o, o.active))
  }

  /** How much an observation or fault lowers the score of the active bearer. */
  function Drop(o: Orchestrator, op: Op): real {
    if op.Eval? then 0.0 else MaxR(0.0, ActiveScore(o) - ActiveScore(Step(o, op)))
  }

  function TotalDrop(o: Orchestrator, ops: seq<Op>): real
    decreases |ops|
  {
    if ops == [] then 0.0 else Drop(o, ops[0]) + TotalDrop(Step(o, ops[0]), ops[1..])
  }

  /** The active bearer has a finite score throughout: it stays supported and
      available, and the sink, if active, has a finite preference. */
  predicate StaysUsable(o: Orchestrator, ops: seq<Op>)
    decreases |ops|
  {
    ScoreOf(o, o.active).Fin? && (ops != [] ==> StaysUsable(Step(o, ops[0]), ops[1..]))
  }

  lemma EvaluatePays(o: Orchestrator)
    requires ScoreOf(o, o.active).Fin? && ScoreOf(Evaluate(o), Evaluate(o).active).Fin?
    ensures var e := Evaluate(o);
            BetterSwitches(e.history) == BetterSwitches(o.history)
            + (if SwitchReason(o) == "better_score" then 1 else 0) &&
            ActiveScore(e) >= ActiveScore(o) + (if SwitchReason(o) == "better_score" then o.hysteresis else 0.0) &&
            e.hysteresis == o.hysteresis
  {
    var e := Evaluate(o);
    if SwitchReason(o) != "hold" {
      assert e.history[..|e.history| - 1] == o.history;
    }
  }

  lemma ObserveKeeps(o: Orchestrator, op: Op)
    requires !op.Eval?
    ensures var e := Step(o, op); e.history == o.history && e.hysteresis == o.hysteresis && e.active == o.active
    ensures ActiveScore(Step(o, op)) >= ActiveScore(o) - Drop(o, op)
  {
  }

  predicate Covers(gain: real, h: real, n: int) {
    h * n as real <= gain
  }

  /** Score gained over the run plus what updates took from the active bearer. */
  function Budget(o: Orchestrator, ops: seq<Op>): real {
    ActiveScore(Run(o, ops)) - ActiveScore(o) + TotalDrop(o, ops)
  }

  function NewSwitches(o: Orchestrator, ops: seq<Op>): int {
    BetterSwitches(Run(o, ops).history) - BetterSwitches(o.history)
  }

  lemma {:induction false} BudgetCovers(o: Orchestrator, ops: seq<Op>)
    requires StaysUsable(o, ops)
    ensures NewSwitches(o, ops) >= 0 && Covers(Budget(o, ops), o.hysteresis, NewSwitches(o, ops))
    decreases |ops|
  {
    if ops != [] {
      var next := Step(o, ops[0]);
      StepPays(o, ops[0]);
      BudgetCovers(next, ops[1..]);
      AddUp(o.hysteresis, BetterSwitches(next.history) - BetterSwitches(o.history), NewSwitches(next, ops[1..]),
            Budget(next, ops[1..]), ActiveScore(next) - ActiveScore(o) + Drop(o, ops[0]));
      assert Budget(o, ops) == Budget(next, ops[1..]) + (ActiveScore(next) - ActiveScore(o) + Drop(o, ops[0]));
    }
  }

  /** Every switch to a better bearer is paid for: the hysteresis times the number
      of such switches is at most the score gained plus the score that updates
      took from the active bearer, in any interleaving. */
  lemma SwitchesArePaidFor(o: Orchestrator, ops: seq<Op>)
    requires StaysUsable(o, ops)
    ensures o.hysteresis * NewSwitches(o, ops) as real <= Budget(o, ops)
  {
    BudgetCovers(o, ops);
    CoversMeans(Budget(o, ops), o.hysteresis, NewSwitches(o, ops));
  }

  lemma CoversMeans(gain: real, h: real, n: int)
    requires Covers(gain, h, n)
    ensures h * n as real <= gain
  {
  }

  /** One step: its switch, if any, is covered by the score it gained. */
  lemma StepPays(o: Orchestrator, op: Op)
    requires ScoreOf(o, o.active).Fin? && ScoreOf(Step(o, op), Step(o, op).active).Fin?
    ensures var e := Step(o, op);
            && e.hysteresis == o.hysteresis
            && 0 <= BetterSwitches(e.history) - BetterSwitches(o.history) <= 1
            && (BetterSwitches(e.history) == BetterSwitches(o.history) ==> ActiveScore(e) >= ActiveScore(o) - Drop(o, op))
            && (BetterSwitches(e.history) > BetterSwitches(o.history) ==>
                  ActiveScore(e) >= ActiveScore(o) - Drop(o, op) + o.hysteresis)
  {
    if op.Eval? {
      EvaluatePays(o);
    } else {
      ObserveKeeps(o, op);
    }
  }

  lemma AddUp(h: real, k: int, n: int, gain: real, now: real)
    requires Covers(gain, h, n) && 0 <= k <= 1 && now >= (if k == 1 then h else 0.0)
    ensures Covers(gain + now, h, k + n)
  {
  }

  /** So on quiet ground, with scores staying in a band and little drop, the
      number of switches is bounded however often the orchestrator evaluates. */
  lemma SwitchesAreBounded(o: Orchestrator, ops: seq<Op>, low: real, high: real, drop: real)
    requires StaysUsable(o, ops) && o.hysteresis > 0.0
    requires ActiveScore(o) >= low && ActiveScore(Run(o, ops)) <= high && TotalDrop(o, ops) <= drop
    ensures NewSwitches(o, ops) as real <= (high - low + drop) / o.hysteresis
  {
    BudgetCovers(o, ops);
    DivideBy(o.hysteresis, NewSwitches(o, ops), Budget(o, ops), high - low + drop);
  }

  lemma DivideBy(h: real, n: int, x: real, y: real)
    requires h > 0.0 && Covers(x, h, n) && x <= y
    ensures n as real <= y / h
  {
  }
}
