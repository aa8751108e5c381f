/** What the orchestrator does for its user: a better bearer is taken, the score is
    the weighted sum of the grades on the axes, and calls touch what they name. */
module ConnectivityLaws {
  import opened Options
  import opened Connectivity
  import opened ConnectivityScores
  import opened ConnectivityRuns

  // ---- a better bearer is taken -----------------------------------------------

  /** The bearer beats the active one by the hysteresis. */
  predicate Beats(o: Orchestrator, b: Bearer) {
    AtLeast(ScoreOf(o, b), Plus(ScoreOf(o, o.active), o.hysteresis))
  }

  /** The evaluation recorded one switch for this reason. */
  predicate SwitchedFor(o: Orchestrator, reason: string) {
    && |Evaluate(o).history| == |o.history| + 1
    && Evaluate(o).history[|o.history|].reason == reason
  }

  /** An evaluation leaves the active bearer for a better one if and only if some
      bearer beats it by the hysteresis, whichever bearer is active; it then ends on a
      bearer that no other outscores. */
  lemma TakesBetterIff(o: Orchestrator)
    requires SinkUp(o) && o.hysteresis > 0.0 && ScoreOf(o, o.active).Fin?
    ensures SwitchedFor(o, "better_score") <==> exists b :: Beats(o, b)
    ensures Evaluate(o).active != o.active <==> exists b :: Beats(o, b)
    ensures Evaluate(o).active != o.active ==> forall b :: AtLeast(ScoreOf(o, Evaluate(o).active), ScoreOf(o, b))
    ensures Evaluate(o).active == o.active ==> Evaluate(o).history == o.history
  {
    forall b ensures AtLeast(ScoreOf(o, Best(o)), ScoreOf(o, b)) {
      BestIsBest(o, b);
    }
    if b :| Beats(o, b) {
      assert AtLeast(ScoreOf(o, Best(o)), ScoreOf(o, b));
      assert Beats(o, Best(o));
    }
    if SwitchReason(o) != "hold" {
      assert Beats(o, Best(o));
    }
  }

  /** After any evaluation that ends on a finite score, no bearer beats the active one
      by the hysteresis. */
  lemma NoneBeatsAfterwards(o: Orchestrator, b: Bearer)
    requires SinkUp(o) && SomeScore(o) && o.hysteresis > 0.0
    requires ScoreOf(Evaluate(o), Evaluate(o).active).Fin?
    ensures !Beats(Evaluate(o), b)
  {
    hide Quality, OfflineQuality;
    var e := Evaluate(o);
    EvaluateKeepsInputs(o);
    SameInputsRank(o, e);
    BestIsBest(o, b);
    BestScoresIff(o);
    EvaluateActive(o);
    assert ScoreOf(e, e.active) == ScoreOf(o, e.active) && ScoreOf(e, b) == ScoreOf(o, b);
  }

  /** A bearer that cannot be used is left for the best one there is. */
  lemma LeavesUnusable(o: Orchestrator)
    requires SinkUp(o) && SomeScore(o) && ScoreOf(o, o.active).MinusInfinity?
    ensures SwitchedFor(o, "active_unavailable") && Evaluate(o).active != o.active
    ensures forall b :: AtLeast(ScoreOf(o, Evaluate(o).active), ScoreOf(o, b))
  {
    BestScoresIff(o);
    forall b ensures AtLeast(ScoreOf(o, Best(o)), ScoreOf(o, b)) {
      BestIsBest(o, b);
    }
  }

  /** On a real bearer the orchestrator says "degraded" exactly if no bearer scores
      twenty, and "connected" otherwise. */
  lemma DegradedIff(o: Orchestrator)
    requires SinkUp(o) && SomeScore(o) && !Evaluate(o).active.Offline?
    ensures Evaluate(o).phase.Connected? <==> exists b :: AtLeast(ScoreOf(o, b), Fin(20.0))
    ensures Evaluate(o).phase.Degraded? <==> !Evaluate(o).phase.Connected?
  {
    BestScoresIff(o);
    forall b ensures AtLeast(ScoreOf(o, Best(o)), ScoreOf(o, b)) {
      BestIsBest(o, b);
    }
    SameInputsRank(o, o.(phase := Evaluating));
    if exists b :: AtLeast(ScoreOf(o, b), Fin(20.0)) {
      var b :| AtLeast(ScoreOf(o, b), Fin(20.0));
      assert AtLeast(ScoreOf(o, Best(o)), ScoreOf(o, b));
      assert !Below20(ScoreOf(o, Best(o)));
    }
  }

  // ---- the history of switches --------------------------------------------------

  /** The switches link up, and lead to the active bearer. */
  predicate Linked(history: seq<Transition>, active: Bearer) {
    && (forall i | 0 < i < |history| :: history[i].from == history[i - 1].to)
    && (history != [] ==> history[|history| - 1].to == active)
  }

  lemma EvaluateLinks(o: Orchestrator)
    requires SinkUp(o) && SomeScore(o) && Linked(o.history, o.active)
    ensures Linked(Evaluate(o).history, Evaluate(o).active)
    ensures Evaluate(o).history == o.history ==> Evaluate(o).active == o.active
  {
    BestScoresIff(o);
    EvaluateActive(o);
  }

  /** Every state of the run has a score somewhere. */
  ghost predicate AlwaysScores(o: Orchestrator, ops: seq<Op>)
    decreases |ops|
  {
    SinkUp(o) && SomeScore(o) && (ops != [] ==> AlwaysScores(Step(o, ops[0]), ops[1..]))
  }

  /** Over every run the recorded switches form one chain to the active bearer: no
      change of bearer goes unrecorded. */
  lemma {:induction false} SwitchesLink(o: Orchestrator, ops: seq<Op>)
    requires Linked(o.history, o.active) && AlwaysScores(o, ops)
    ensures Linked(Run(o, ops).history, Run(o, ops).active)
    decreases |ops|
  {
    hide Linked, Evaluate, SinkUp, SomeScore;
    if ops != [] {
      if ops[0].Eval? {
        EvaluateLinks(o);
      } else {
        ObserveKeeps(o, ops[0]);
      }
      SwitchesLink(Step(o, ops[0]), ops[1..]);
    }
  }

  // ---- the score ------------------------------------------------------------------

  /** Grades on the eight axes, from worst (zero) to best (one). */
  datatype Grades = Grades(signal: real, latency: real, jitter: real, loss: real, cost: real, energy: real,
                           security: real, preference: real)

  predicate InRange(x: real) {
    0.0 <= x <= 1.0
  }

  predicate Proper(g: Grades) {
    && InRange(g.signal) && InRange(g.latency) && InRange(g.jitter) && InRange(g.loss)
    && InRange(g.cost) && InRange(g.energy) && InRange(g.security) && InRange(g.preference)
  }

  /** An observation with these grades: -90 to -30 dBm, 200 to 0 ms of latency, 50 to
      0 ms of jitter, 100 to 0 percent of loss, a relative cost of 1 to 0, 2000 to 0 mW. */
  function Graded(g: Grades): Metrics {
    Metrics(true, Some(Num(-90.0 + 60.0 * g.signal)), Num(200.0 * (1.0 - g.latency)), Num(50.0 * (1.0 - g.jitter)),
            Num(100.0 * (1.0 - g.loss)), Num(1.0 - g.cost), Num(2000.0 * (1.0 - g.energy)),
            Num(g.security), Num(g.preference))
  }

  /** The score is the availability weight plus ten times each grade times the weight
      of its own axis. */
  lemma ScoreIsWeightedGrades(w: Weights, g: Grades)
    requires Proper(g)
    ensures Quality(w, Graded(g)) ==
            w.availability + 10.0 * (w.signal * g.signal) + 10.0 * (w.latency * g.latency) + 10.0 * (w.jitter * g.jitter)
            + 10.0 * (w.loss * g.loss) + 10.0 * (w.cost * g.cost) + 10.0 * (w.energy * g.energy)
            + 10.0 * (w.security * g.security) + 10.0 * (w.preference * g.preference)
  {
    hide SignalTerm, LatencyTerm, JitterTerm, LossTerm, CostTerm, EnergyTerm, SecurityTerm, PreferenceTerm, Weighted;
    GradesAreTerms(g);
    TenTimes(w.signal, g.signal);
    TenTimes(w.latency, g.latency);
    TenTimes(w.jitter, g.jitter);
    TenTimes(w.loss, g.loss);
    TenTimes(w.cost, g.cost);
    TenTimes(w.energy, g.energy);
    TenTimes(w.security, g.security);
    TenTimes(w.preference, g.preference);
  }

  lemma TenTimes(w: real, x: real)
    ensures Weighted(w, x) == 10.0 * (w * x)
  {
  }

  lemma GradesAreTerms(g: Grades)
    requires Proper(g)
    ensures SignalTerm(Graded(g)) == g.signal && LatencyTerm(Graded(g)) == g.latency && JitterTerm(Graded(g)) == g.jitter
    ensures LossTerm(Graded(g)) == g.loss && CostTerm(Graded(g)) == g.cost && EnergyTerm(Graded(g)) == g.energy
    ensures SecurityTerm(Graded(g)) == g.security && PreferenceTerm(Graded(g)) == g.preference
  {
  }

  /** Nonsense on an axis counts as the worst, and so does anything beyond the worst;
      anything beyond the best counts as the best. */
  lemma NonsenseIsWorst(m: Metrics)
    ensures m.signal.None? || !m.signal.value.Num? || m.signal.value.r <= -90.0 ==> SignalTerm(m) == 0.0
    ensures m.signal.Some? && m.signal.value.Num? && m.signal.value.r >= -30.0 ==> SignalTerm(m) == 1.0
    ensures !m.latency.Num? || m.latency.r >= 200.0 ==> LatencyTerm(m) == 0.0
    ensures !m.jitter.Num? || m.jitter.r >= 50.0 ==> JitterTerm(m) == 0.0
    ensures !m.loss.Num? || m.loss.r >= 100.0 ==> LossTerm(m) == 0.0
    ensures !m.cost.Num? || m.cost.r >= 1.0 ==> CostTerm(m) == 0.0
    ensures !m.energy.Num? || m.energy.r >= 2000.0 ==> EnergyTerm(m) == 0.0
    ensures !m.security.Num? || m.security.r <= 0.0 ==> SecurityTerm(m) == 0.0
    ensures m.security.Num? && m.security.r >= 1.0 ==> SecurityTerm(m) == 1.0
    ensures !m.preference.Num? || m.preference.r <= 0.0 ==> PreferenceTerm(m) == 0.0
    ensures m.preference.Num? && m.preference.r >= 1.0 ==> PreferenceTerm(m) == 1.0
  {
  }

  const DefaultWeights := Weights(10.0, 1.0, 2.0, 1.5, 3.0, 1.0, 0.8, 2.0, 1.5)

  const GoodEthernet := Metrics(true, None, Num(0.0), Num(0.0), Num(0.0), Num(0.0), Num(1000.0), Num(1.0), Num(0.5))

  lemma TwoQualities()
    ensures Quality(DefaultWeights, Unobserved.(available := true)) == 21.5
    ensures Quality(DefaultWeights, GoodEthernet) == 116.5
  {
    hide SignalTerm, LatencyTerm, JitterTerm, LossTerm, CostTerm, EnergyTerm, SecurityTerm, PreferenceTerm, Weigh;
    TwoTerms();
    TwoSums();
  }

  lemma TwoTerms()
    ensures var m := Unobserved.(available := true);
            && SignalTerm(m) == LatencyTerm(m) == JitterTerm(m) == LossTerm(m) == CostTerm(m) == SecurityTerm(m) == 0.0
            && EnergyTerm(m) == PreferenceTerm(m) == 0.5
    ensures var m := GoodEthernet;
            && LatencyTerm(m) == JitterTerm(m) == LossTerm(m) == CostTerm(m) == SecurityTerm(m) == 1.0
            && SignalTerm(m) == 0.0 && EnergyTerm(m) == PreferenceTerm(m) == 0.5
  {
  }

  lemma TwoSums()
    ensures Weigh(DefaultWeights, 0.0, 0.0, 0.0, 0.0, 0.0, 0.5, 0.0, 0.5) == 21.5
    ensures Weigh(DefaultWeights, 0.0, 1.0, 1.0, 1.0, 1.0, 0.5, 1.0, 0.5) == 116.5
  {
  }

  /** With the default weights and hysteresis, a good ethernet link is taken over a
      wifi link of which nothing but its presence is known. */
  lemma EthernetIsTaken(o: Orchestrator)
    requires SinkUp(o) && o.weights == DefaultWeights && o.hysteresis == 5.0
    requires o.active.Wifi? && Wifi in o.supported && Ethernet in o.supported
    requires o.metrics[Wifi] == Unobserved.(available := true) && o.metrics[Ethernet] == GoodEthernet
    requires forall b: Bearer | b.Bluetooth? || b.Cellular? || b.NtnSimulated? :: !Of(o.metrics, b).available
    ensures ScoreOf(o, Wifi) == Fin(21.5) && ScoreOf(o, Ethernet) == Fin(116.5)
    ensures Evaluate(o).active != Wifi && SwitchedFor(o, "better_score")
    ensures AtLeast(ScoreOf(o, Evaluate(o).active), Fin(116.5))
  {
    hide Evaluate, Best, Quality, OfflineQuality;
    TwoQualities();
    assert Beats(o, Ethernet);
    TakesBetterIff(o);
  }

  // ---- calls touch what they name -------------------------------------------------

  /** An observation of a supported bearer replaces what was known of it, and nothing
      else: its score is that of the observation alone, other scores stay. */
  lemma ObservationCounts(o: Orchestrator, b: Bearer, m: Metrics, c: Bearer)
    ensures var u := UpdateMetrics(o, b, m);
            && (c != b || (b !in o.supported && !b.Offline?) ==> ScoreOf(u, c) == ScoreOf(o, c))
            && (b in o.supported && !b.Offline? ==>
                  ScoreOf(u, b) == if m.available then Fin(Quality(o.weights, m)) else MinusInfinity)
            && (b.Offline? ==> ScoreOf(u, b) == OfflineQuality(o.weights, m))
            && u.active == o.active && u.phase == o.phase && u.history == o.history && u.faults == o.faults
  {
    hide Quality, OfflineQuality;
    assert OfflineQuality(o.weights, m.(available := true)) == OfflineQuality(o.weights, m) by {
      SamePreference(o.weights, m);
    }
  }

  lemma SamePreference(w: Weights, m: Metrics)
    ensures OfflineQuality(w, m.(available := true)) == OfflineQuality(w, m)
  {
  }

  /** A fault is remembered, and touches the bearers it names: the active real one,
      wifi, or all real ones. */
  lemma FaultTouches(o: Orchestrator, fault: FaultKind, c: Bearer)
    ensures var f := InjectFault(o, fault);
            && f.faults == o.faults + {fault} && f.active == o.active && f.history == o.history && f.phase == o.phase
            && (c.Offline? ==> ScoreOf(f, c) == ScoreOf(o, c))
            && (fault in {DropActive, InflateLatency, DegradeActive} && c != o.active ==> ScoreOf(f, c) == ScoreOf(o, c))
            && (fault == JamWifi && c != Wifi ==> ScoreOf(f, c) == ScoreOf(o, c))
            && (fault.OtherFault? ==> ScoreOf(f, c) == ScoreOf(o, c))
            && (fault == InflateLatency && !o.active.Offline? && Usable(o, o.active) && NonNegative(o.weights) ==>
                  ActiveScore(f) <= ActiveScore(o))
  {
    hide Quality, OfflineQuality;
    if fault == InflateLatency && !o.active.Offline? && NonNegative(o.weights) {
      SlowerIsNoBetter(o.weights, Of(o.metrics, o.active));
    }
  }

  /** What the radio looks like afterwards: a dropped, jammed or forced-off bearer is
      unavailable and loses everything; a slowed one has no latency to its credit and
      is otherwise as it was; a degraded one has none either, a signal of two parts in
      sixty, and a loss of at least eight per cent. */
  lemma FaultShows(o: Orchestrator, fault: FaultKind, c: Bearer)
    ensures var m, n := Of(o.metrics, c), Of(InjectFault(o, fault).metrics, c);
            var hit := c == o.active && !c.Offline?;
            && ((fault == DropActive && hit) || (fault == JamWifi && c == Wifi) || (fault == ForceOffline && !c.Offline?) ==>
                  !n.available && LossTerm(n) == 0.0 && n == m.(available := false, loss := n.loss))
            && (fault == InflateLatency && hit ==> n == m.(latency := n.latency) && LatencyTerm(n) == 0.0)
            && (fault == DegradeActive && hit ==>
                  && n == m.(latency := n.latency, loss := n.loss, signal := n.signal)
                  && LatencyTerm(n) == 0.0 && SignalTerm(n) == 2.0 / 60.0
                  && (m.loss != Infinity(true) ==> LossTerm(n) == MinR(LossTerm(m), 0.92)))
  {
    hide LatencyTerm, LossTerm, SignalTerm;
    var m := Of(o.metrics, c);
    FaultShowsOn(m);
  }

  lemma FaultShowsOn(m: Metrics)
    ensures LossTerm(Down(m)) == 0.0 && LatencyTerm(m.(latency := Num(5000.0))) == 0.0
    ensures LatencyTerm(Worsened(m)) == 0.0 && SignalTerm(Worsened(m)) == 2.0 / 60.0
    ensures m.loss != Infinity(true) ==> LossTerm(Worsened(m)) == MinR(LossTerm(m), 0.92)
  {
  }

  lemma SlowerIsNoBetter(w: Weights, m: Metrics)
    requires NonNegative(w)
    ensures Quality(w, m.(latency := Num(5000.0))) <= Quality(w, m)
  {
    hide Quality;
    TermsCount(w, m.(latency := Num(5000.0)), m);
  }

  /** Every bearer can be named in a decision, two of them by two names, and any other
      name means offline. */
  lemma DecisionNames(name: string)
    ensures Decided("ethernet") == Ethernet && Decided("wifi") == Wifi && Decided("ntn_simulated") == NtnSimulated
    ensures Decided("bluetooth") == Decided("peer_local") == Bluetooth
    ensures Decided("cellular") == Decided("cellular_generic") == Cellular
    ensures name !in {"ethernet", "wifi", "ntn_simulated", "bluetooth", "peer_local", "cellular", "cellular_generic"} ==>
              Decided(name) == Offline
  {
  }

  /** A decision ends on the named bearer, with one recorded switch unless it was
      active already; a real bearer held is taken to be connected. */
  lemma DecisionIsApplied(o: Orchestrator, target: Bearer, reason: string)
    ensures var d := ApplyDecision(o, target, reason);
            && d.active == target && (d.phase.Disconnected? <==> target.Offline?)
            && (o.active == target ==> d.history == o.history && (d.phase.Connected? <==> !target.Offline?))
            && (o.active != target ==>
                  && |d.history| == |o.history| + 1 && o.history <= d.history
                  && d.history[|o.history|].from == o.active && d.history[|o.history|].to == target
                  && d.history[|o.history|].fromScore == ScoreOf(o, o.active)
                  && d.history[|o.history|].toScore == ScoreOf(o, target)
                  && d.history[|o.history|].before == o.phase && d.history[|o.history|].after == d.phase
                  && (d.phase.Degraded? <==> !target.Offline? && Below20(ScoreOf(o, target))))
  {
  }
}
