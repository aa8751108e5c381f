/** Bearer scoring, ranking and the switching rule of the connectivity
    orchestrator. Floating-point numbers are reals, not-a-numbers and infinities. */
module Connectivity {
  import opened Options

  datatype Bearer = Ethernet | Wifi | Bluetooth | Cellular | NtnSimulated | Offline

  /** The orchestrator's own state; `Disconnected` is its "offline". */
  datatype Phase = Idle | Evaluating | Connected | Transitioning | Degraded | Disconnected

  datatype Float = Num(r: real) | NotANumber | Infinity(negative: bool)

  datatype Metrics = Metrics(
    available: bool,
    signal: Option<Float>,
    latency: Float,
    jitter: Float,
    loss: Float,
    cost: Float,
    energy: Float,
    security: Float,
    preference: Float)

  datatype Weights = Weights(
    availability: real,
    signal: real,
    latency: real,
    jitter: real,
    loss: real,
    cost: real,
    energy: real,
    security: real,
    preference: real)

  datatype Score = MinusInfinity | Fin(value: real) | PlusInfinity | Nan

  datatype Transition = Transition(
    from: Bearer, to: Bearer, reason: string, fromScore: Score, toScore: Score, before: Phase, after: Phase)

  datatype FaultKind = DropActive | InflateLatency | JamWifi | DegradeActive | ForceOffline | OtherFault(name: string)

  const Unobserved := Metrics(false, None, Num(9999.0), Num(9999.0), Num(100.0), Num(1.0), Num(1000.0), Num(0.0), Num(0.5))

  const OfflineDefault := Metrics(true, None, Num(0.0), Num(0.0), Num(0.0), Num(0.0), Num(1.0), Num(1.0), Num(0.1))

  /** Every known bearer has metrics. */
  type Table = m: map<Bearer, Metrics> |
      Ethernet in m && Wifi in m && Bluetooth in m && Cellular in m && NtnSimulated in m && Offline in m
    witness DefaultTable

  const DefaultTable: map<Bearer, Metrics> :=
    map[Ethernet := Unobserved, Wifi := Unobserved, Bluetooth := Unobserved, Cellular := Unobserved,
        NtnSimulated := Unobserved, Offline := OfflineDefault]

  /** The order in which the bearers are listed, which breaks ranking ties. */
  const Listed: seq<Bearer> := [Ethernet, Wifi, Bluetooth, Cellular, NtnSimulated, Offline]

  const AllBearers: set<Bearer> := {Ethernet, Wifi, Bluetooth, Cellular, NtnSimulated, Offline}

  datatype Orchestrator = Orchestrator(
    weights: Weights,
    hysteresis: real,
    active: Bearer,
    phase: Phase,
    metrics: Table,
    history: seq<Transition>,
    faults: set<FaultKind>,
    supported: set<Bearer>)

  function Of(metrics: Table, b: Bearer): Metrics {
    match b
    case Ethernet => metrics[Ethernet]
    case Wifi => metrics[Wifi]
    case Bluetooth => metrics[Bluetooth]
    case Cellular => metrics[Cellular]
    case NtnSimulated => metrics[NtnSimulated]
    case Offline => metrics[Offline]
  }

  // ---- scores ---------------------------------------------------------------

  function Finite(x: Float, default: real): real {
    if x.Num? then x.r else default
  }

  function MaxR(x: real, y: real): real {
    if x >= y then x else y
  }

  function MinR(x: real, y: real): real {
    if x <= y then x else y
  }

  /** max(0, min(1, x)) */
  function Unit(x: real): real {
    MaxR(0.0, MinR(1.0, x))
  }

  function SignalTerm(m: Metrics): real {
    if m.signal.None? then 0.0 else Unit((Finite(m.signal.value, -90.0) + 90.0) / 60.0)
  }

  function LatencyTerm(m: Metrics): real {
    MaxR(0.0, 200.0 - Finite(m.latency, 9999.0)) / 200.0
  }

  function JitterTerm(m: Metrics): real {
    MaxR(0.0, 50.0 - Finite(m.jitter, 9999.0)) / 50.0
  }

  function LossTerm(m: Metrics): real {
    MaxR(0.0, 1.0 - Finite(m.loss, 100.0) / 100.0)
  }

  function CostTerm(m: Metrics): real {
    MaxR(0.0, 1.0 - MinR(1.0, Finite(m.cost, 1.0)))
  }

  function EnergyTerm(m: Metrics): real {
    MaxR(0.0, 1.0 - MinR(1.0, Finite(m.energy, 2000.0) / 2000.0))
  }

  function SecurityTerm(m: Metrics): real {
    Unit(Finite(m.security, 0.0))
  }

  function PreferenceTerm(m: Metrics): real {
    Unit(Finite(m.preference, 0.0))
  }

  function Weighted(weight: real, term: real): real {
    weight * term * 10.0
  }

  function Weigh(w: Weights, signal: real, latency: real, jitter: real, loss: real, cost: real,
                 energy: real, security: real, preference: real): real
  {
    w.availability * 1.0
    + Weighted(w.signal, signal)
    + Weighted(w.latency, latency)
    + Weighted(w.jitter, jitter)
    + Weighted(w.loss, loss)
    + Weighted(w.cost, cost)
    + Weighted(w.energy, energy)
    + Weighted(w.security, security)
    + Weighted(w.preference, preference)
  }

  /** The score of an available real bearer. */
  function Quality(w: Weights, m: Metrics): real {
    Weigh(w, SignalTerm(m), LatencyTerm(m), JitterTerm(m), LossTerm(m), CostTerm(m), EnergyTerm(m),
          SecurityTerm(m), PreferenceTerm(m))
  }

  /** The offline sink sits a thousand below the real bearers. Its preference is used
      as it is, so an infinite one, or none, shows in the score. */
  function OfflineQuality(w: Weights, m: Metrics): Score {
    match m.preference
    case Num(r) => Fin(-1000.0 + Weighted(w.preference, r))
    case NotANumber => Nan
    case Infinity(negative) =>
      if w.preference == 0.0 then Nan
      else if (w.preference > 0.0) == negative then MinusInfinity else PlusInfinity
  }

  /** Supported (the offline sink always is) and observed available. */
  predicate Usable(o: Orchestrator, b: Bearer) {
    (b in o.supported || b.Offline?) && Of(o.metrics, b).available
  }

  function ScoreOf(o: Orchestrator, b: Bearer): Score {
    if !Usable(o, b) then MinusInfinity
    else if b.Offline? then OfflineQuality(o.weights, Of(o.metrics, b))
    else Fin(Quality(o.weights, Of(o.metrics, b)))
  }

  /** `>=`, which holds for no comparison with a score that is not a number. */
  predicate AtLeast(x: Score, y: Score) {
    if x.Nan? || y.Nan? then false
    else y.MinusInfinity? || x.PlusInfinity? || (x.Fin? && y.Fin? && x.value >= y.value)
  }

  predicate Below20(x: Score) {
    x.MinusInfinity? || (x.Fin? && x.value < 20.0)
  }

  function Plus(x: Score, delta: real): Score {
    if x.Fin? then Fin(x.value + delta) else x
  }

  // ---- ranking --------------------------------------------------------------

  /** Insert behind everything that scores at least as much. */
  function Insert(score: Bearer -> Score, b: Bearer, ranked: seq<Bearer>): seq<Bearer> {
    if ranked != [] && AtLeast(score(ranked[0]), score(b)) then [ranked[0]] + Insert(score, b, ranked[1..])
    else [b] + ranked
  }

  function RankedPrefix(score: Bearer -> Score, n: nat): seq<Bearer>
    requires n <= |Listed|
  {
    if n == 0 then [] else Insert(score, Listed[n - 1], RankedPrefix(score, n - 1))
  }

  /** The bearers by descending score, ties in listed order. */
  function Ranked(o: Orchestrator): seq<Bearer> {
    RankedPrefix(b => ScoreOf(o, b), |Listed|)
  }

  /** The candidate: the head of the ranking. */
  function Best(o: Orchestrator): Bearer {
    var ranked := Ranked(o);
    if ranked != [] then ranked[0] else Offline
  }

  lemma {:induction false} SameScoresInsert(s: Bearer -> Score, t: Bearer -> Score, b: Bearer, ranked: seq<Bearer>)
    requires forall c :: s(c) == t(c)
    ensures Insert(s, b, ranked) == Insert(t, b, ranked)
  {
    if ranked != [] {
      SameScoresInsert(s, t, b, ranked[1..]);
    }
  }

  lemma {:induction false} SameScoresRank(s: Bearer -> Score, t: Bearer -> Score, n: nat)
    requires n <= |Listed| && forall c :: s(c) == t(c)
    ensures RankedPrefix(s, n) == RankedPrefix(t, n)
  {
    if n > 0 {
      SameScoresRank(s, t, n - 1);
      SameScoresInsert(s, t, Listed[n - 1], RankedPrefix(s, n - 1));
    }
  }

  /** Scores and ranking depend on metrics, weights and profile only. */
  lemma SameInputsRank(o: Orchestrator, p: Orchestrator)
    requires o.metrics == p.metrics && o.weights == p.weights && o.supported == p.supported
    ensures Best(o) == Best(p)
    ensures forall b :: ScoreOf(o, b) == ScoreOf(p, b)
  {
    SameScoresRank(b => ScoreOf(o, b), b => ScoreOf(p, b), |Listed|);
  }

  // ---- effects --------------------------------------------------------------

  function TransitionTo(o: Orchestrator, target: Bearer, reason: string): Orchestrator {
    var after := if target.Offline? then Disconnected else if Below20(ScoreOf(o, target)) then Degraded else Connected;
    o.(active := target, phase := after,
    history := o.history + [Transition(o.active, target, reason, ScoreOf(o, o.active), ScoreOf(o, target), o.phase, after)])
  }

  function SwitchReason(o: Orchestrator): string {
    var activeScore := ScoreOf(o, o.active);
    if Best(o) == o.active then "hold"
    else if activeScore.MinusInfinity? then "active_unavailable"
    else if AtLeast(ScoreOf(o, Best(o)), Plus(activeScore, o.hysteresis)) then "better_score"
    else "hold"
  }

  function Evaluate(o: Orchestrator): Orchestrator {
    var e := o.(phase := Evaluating);
    if SwitchReason(o) != "hold" then TransitionTo(e, Best(o), SwitchReason(o))
    else if o.active.Offline? || !Of(o.metrics, o.active).available then e.(phase := Disconnected, active := Offline)
    else if Below20(ScoreOf(o, Best(o))) then e.(phase := Degraded)
    else e.(phase := Connected)
  }

  function UpdateMetrics(o: Orchestrator, b: Bearer, m: Metrics): Orchestrator {
    if b !in o.supported && !b.Offline? then o  // refused
    else o.(metrics := o.metrics[b := if b.Offline? then m.(available := true) else m])
  }

  /** Python's max(x, floor) keeps x unless the floor is greater. */
  function RaiseTo(x: Float, floor: real): Float {
    match x
    case Num(r) => Num(MaxR(r, floor))
    case NotANumber => x
    case Infinity(negative) => if negative then Num(floor) else x
  }

  function Down(m: Metrics): Metrics {
    m.(available := false, loss := Num(100.0))
  }

  function AllDown(metrics: Table): Table {
    metrics
    [Ethernet := Down(metrics[Ethernet])][Wifi := Down(metrics[Wifi])][Bluetooth := Down(metrics[Bluetooth])]
    [Cellular := Down(metrics[Cellular])][NtnSimulated := Down(metrics[NtnSimulated])]
  }

  function Worsened(m: Metrics): Metrics {
    m.(latency := RaiseTo(m.latency, 250.0), loss := RaiseTo(m.loss, 8.0), signal := Some(Num(-88.0)))
  }

  function InjectFault(o: Orchestrator, fault: FaultKind): Orchestrator {
    var f := o.(faults := o.faults + {fault});
    var m := Of(o.metrics, o.active);
    match fault
    case DropActive => if o.active.Offline? then f else f.(metrics := o.metrics[o.active := Down(m)])
    case InflateLatency =>
      if o.active.Offline? then f else f.(metrics := o.metrics[o.active := m.(latency := Num(5000.0))])
    case JamWifi => f.(metrics := o.metrics[Wifi := Down(o.metrics[Wifi])])
    case DegradeActive =>
      if o.active.Offline? then f
      else f.(metrics := o.metrics[o.active := Worsened(m)])
    case ForceOffline => f.(metrics := AllDown(o.metrics))
    case OtherFault(_) => f
  }

  /** The bearer a network decision names; an unknown name means offline. */
  function Decided(name: string): Bearer {
    if name == "ethernet" then Ethernet
    else if name == "wifi" then Wifi
    else if name == "peer_local" || name == "bluetooth" then Bluetooth
    else if name == "cellular_generic" || name == "cellular" then Cellular
    else if name == "ntn_simulated" then NtnSimulated
    else Offline
  }

  function ApplyDecision(o: Orchestrator, target: Bearer, reason: string): Orchestrator {
    if o.active != target then TransitionTo(o, target, reason)
    else o.(phase := if target.Offline? then Disconnected else Connected)
  }
}
