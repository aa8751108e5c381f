/** The score is what its weights promise: bounded below, monotone on every axis;
    and the ranking is the stable descending order of the scores. */
module ConnectivityScores {
  import opened Options
  import opened Connectivity

  predicate NonNegative(w: Weights) {
    && w.availability >= 0.0 && w.signal >= 0.0 && w.latency >= 0.0 && w.jitter >= 0.0 && w.loss >= 0.0
    && w.cost >= 0.0 && w.energy >= 0.0 && w.security >= 0.0 && w.preference >= 0.0
  }

  lemma WeightedMonotone(w: real, x: real, y: real)
    requires w >= 0.0 && x <= y
    ensures Weighted(w, x) <= Weighted(w, y)
  {
  }

  lemma WeighMonotone(w: Weights, s: real, l: real, j: real, lo: real, c: real, e: real, se: real, p: real,
                      s': real, l': real, j': real, lo': real, c': real, e': real, se': real, p': real)
    requires NonNegative(w)
    requires s <= s' && l <= l' && j <= j' && lo <= lo' && c <= c' && e <= e' && se <= se' && p <= p'
    ensures Weigh(w, s, l, j, lo, c, e, se, p) <= Weigh(w, s', l', j', lo', c', e', se', p')
  {
    WeightedMonotone(w.signal, s, s');
    WeightedMonotone(w.latency, l, l');
    WeightedMonotone(w.jitter, j, j');
    WeightedMonotone(w.loss, lo, lo');
    WeightedMonotone(w.cost, c, c');
    WeightedMonotone(w.energy, e, e');
    WeightedMonotone(w.security, se, se');
    WeightedMonotone(w.preference, p, p');
  }

  /** Whatever was observed, even nonsense, a real bearer that is available scores
      at least the availability weight. */
  lemma QualityLowerBound(w: Weights, m: Metrics)
    requires NonNegative(w)
    ensures Quality(w, m) >= w.availability
  {
    WeighMonotone(w, 0.0, 0.0, 0.0, 0.0, 0.0, 0.0, 0.0, 0.0,
                  SignalTerm(m), LatencyTerm(m), JitterTerm(m), LossTerm(m), CostTerm(m), EnergyTerm(m),
                  SecurityTerm(m), PreferenceTerm(m));
  }

  /** At least as good on every observed axis. */
  predicate NoWorse(a: Metrics, b: Metrics) {
    && (b.signal.None? || (a.signal.Some? && Finite(a.signal.value, -90.0) >= Finite(b.signal.value, -90.0)))
    && Finite(a.latency, 9999.0) <= Finite(b.latency, 9999.0)
    && Finite(a.jitter, 9999.0) <= Finite(b.jitter, 9999.0)
    && Finite(a.loss, 100.0) <= Finite(b.loss, 100.0)
    && Finite(a.cost, 1.0) <= Finite(b.cost, 1.0)
    && Finite(a.energy, 2000.0) <= Finite(b.energy, 2000.0)
    && Finite(a.security, 0.0) >= Finite(b.security, 0.0)
    && Finite(a.preference, 0.0) >= Finite(b.preference, 0.0)
  }

  lemma TermsMonotone(a: Metrics, b: Metrics)
    requires NoWorse(a, b)
    ensures TermsBelow(b, a)
  {
  }

  /** Improving any axis never lowers the score. */
  lemma QualityMonotone(w: Weights, a: Metrics, b: Metrics)
    requires NonNegative(w) && NoWorse(a, b)
    ensures Quality(w, a) >= Quality(w, b)
  {
    hide NoWorse, TermsBelow, Quality;
    TermsMonotone(a, b);
    TermsCount(w, b, a);
  }

  /** The degrading fault raises latency and loss but sets the signal to -88 dBm
      whatever it was, and takes a loss of minus infinity, which counts as total, for
      a small one. It lowers no score under any sane weights if and only if the
      signal was at least that good and the loss not minus infinity. */
  lemma DegradingNeverHelpsIff(m: Metrics)
    ensures (forall w | NonNegative(w) :: Quality(w, Worsened(m)) <= Quality(w, m)) <==>
            m.signal.Some? && Finite(m.signal.value, -90.0) >= -88.0 && m.loss != Infinity(true)
  {
    hide Quality, TermsBelow;
    if m.signal.Some? && Finite(m.signal.value, -90.0) >= -88.0 && m.loss != Infinity(true) {
      forall w | NonNegative(w) ensures Quality(w, Worsened(m)) <= Quality(w, m) {
        WorsenedTerms(m);
        TermsCount(w, Worsened(m), m);
      }
    } else if m.loss == Infinity(true) {
      OnlyOne(m);
      OnlyOne(Worsened(m));
      assert NonNegative(OnlyLoss) && Quality(OnlyLoss, Worsened(m)) > Quality(OnlyLoss, m);
    } else {
      OnlyOne(m);
      OnlyOne(Worsened(m));
      assert NonNegative(OnlySignal) && Quality(OnlySignal, Worsened(m)) > Quality(OnlySignal, m);
    }
  }

  const OnlyLoss := Weights(0.0, 0.0, 0.0, 0.0, 1.0, 0.0, 0.0, 0.0, 0.0)
  const OnlySignal := Weights(0.0, 1.0, 0.0, 0.0, 0.0, 0.0, 0.0, 0.0, 0.0)

  lemma OnlyOne(m: Metrics)
    ensures Quality(OnlyLoss, m) == LossTerm(m) * 10.0 && Quality(OnlySignal, m) == SignalTerm(m) * 10.0
  {
    hide SignalTerm, LatencyTerm, JitterTerm, LossTerm, CostTerm, EnergyTerm, SecurityTerm, PreferenceTerm;
  }

  /** No term of a is greater than that of b. */
  predicate TermsBelow(a: Metrics, b: Metrics) {
    && SignalTerm(a) <= SignalTerm(b) && LatencyTerm(a) <= LatencyTerm(b)
    && JitterTerm(a) <= JitterTerm(b) && LossTerm(a) <= LossTerm(b)
    && CostTerm(a) <= CostTerm(b) && EnergyTerm(a) <= EnergyTerm(b)
    && SecurityTerm(a) <= SecurityTerm(b) && PreferenceTerm(a) <= PreferenceTerm(b)
  }

  lemma TermsCount(w: Weights, a: Metrics, b: Metrics)
    requires NonNegative(w) && TermsBelow(a, b)
    ensures Quality(w, a) <= Quality(w, b)
  {
    hide SignalTerm, LatencyTerm, JitterTerm, LossTerm, CostTerm, EnergyTerm, SecurityTerm, PreferenceTerm, Weigh;
    WeighMonotone(w, SignalTerm(a), LatencyTerm(a), JitterTerm(a), LossTerm(a), CostTerm(a), EnergyTerm(a),
                  SecurityTerm(a), PreferenceTerm(a),
                  SignalTerm(b), LatencyTerm(b), JitterTerm(b), LossTerm(b), CostTerm(b), EnergyTerm(b),
                  SecurityTerm(b), PreferenceTerm(b));
  }

  lemma WorsenedTerms(m: Metrics)
    requires m.signal.Some? && Finite(m.signal.value, -90.0) >= -88.0 && m.loss != Infinity(true)
    ensures TermsBelow(Worsened(m), m)
  {
  }

  // ---- ranking --------------------------------------------------------------

  function Position(b: Bearer): nat {
    match b
    case Ethernet => 0
    case Wifi => 1
    case Bluetooth => 2
    case Cellular => 3
    case NtnSimulated => 4
    case Offline => 5
  }

  /** Strictly better, or as good and listed earlier. */
  predicate RanksBefore(score: Bearer -> Score, a: Bearer, b: Bearer) {
    AtLeast(score(a), score(b)) && (!AtLeast(score(b), score(a)) || Position(a) < Position(b))
  }

  /** Every score can be compared. */
  ghost predicate Comparable(score: Bearer -> Score) {
    forall b :: !score(b).Nan?
  }

  /** Everything after the head ranks after it, and so on down. */
  predicate InOrder(score: Bearer -> Score, ranked: seq<Bearer>) {
    ranked == [] || ((forall c | c in ranked[1..] :: RanksBefore(score, ranked[0], c)) && InOrder(score, ranked[1..]))
  }

  lemma {:induction false} InsertElements(score: Bearer -> Score, b: Bearer, ranked: seq<Bearer>)
    ensures multiset(Insert(score, b, ranked)) == multiset(ranked) + multiset{b}
    ensures forall c :: c in Insert(score, b, ranked) <==> c == b || c in ranked
  {
    if ranked != [] && AtLeast(score(ranked[0]), score(b)) {
      InsertElements(score, b, ranked[1..]);
      assert ranked == [ranked[0]] + ranked[1..];
    }
  }

  lemma {:induction false} InsertOrders(score: Bearer -> Score, b: Bearer, ranked: seq<Bearer>)
    requires Comparable(score) && InOrder(score, ranked) && forall c | c in ranked :: Position(c) < Position(b)
    ensures InOrder(score, Insert(score, b, ranked))
  {
    if ranked != [] && AtLeast(score(ranked[0]), score(b)) {
      var rest := Insert(score, b, ranked[1..]);
      InsertOrders(score, b, ranked[1..]);
      InsertElements(score, b, ranked[1..]);
      assert ([ranked[0]] + rest)[1..] == rest;
      assert RanksBefore(score, ranked[0], b);
    } else {
      assert ([b] + ranked)[1..] == ranked;
      forall c | c in ranked ensures RanksBefore(score, b, c) {
        assert c == ranked[0] || c in ranked[1..];
      }
    }
  }

  lemma ListedPosition(i: nat)
    requires i < |Listed|
    ensures Position(Listed[i]) == i
  {
  }

  lemma IsListed(b: Bearer)
    ensures Position(b) < |Listed| && Listed[Position(b)] == b
  {
  }

  lemma {:induction false} PrefixElements(score: Bearer -> Score, n: nat)
    requires n <= |Listed|
    ensures multiset(RankedPrefix(score, n)) == multiset(Listed[..n])
    ensures forall c :: c in RankedPrefix(score, n) <==> Position(c) < n
  {
    hide Insert, Position;
    if n > 0 {
      PrefixElements(score, n - 1);
      InsertElements(score, Listed[n - 1], RankedPrefix(score, n - 1));
      NextListed(n - 1);
    }
  }

  lemma NextListed(n: nat)
    requires n < |Listed|
    ensures multiset(Listed[..n + 1]) == multiset(Listed[..n]) + multiset{Listed[n]}
    ensures forall c :: Position(c) < n + 1 <==> Position(c) < n || c == Listed[n]
  {
    assert Listed[..n + 1] == Listed[..n] + [Listed[n]];
    forall c ensures Position(c) == n <==> c == Listed[n] {
      IsListed(c);
      ListedPosition(n);
    }
  }

  lemma {:induction false} PrefixInOrder(score: Bearer -> Score, n: nat)
    requires n <= |Listed| && Comparable(score)
    ensures InOrder(score, RankedPrefix(score, n))
  {
    if n > 0 {
      PrefixInOrder(score, n - 1);
      PrefixElements(score, n - 1);
      ListedPosition(n - 1);
      InsertOrders(score, Listed[n - 1], RankedPrefix(score, n - 1));
    }
  }

  /** The ranking is a permutation of the bearers, by descending score with ties
      in listed order. */
  lemma RankingIsStableOrder(o: Orchestrator)
    requires !ScoreOf(o, Offline).Nan?
    ensures InOrder(b => ScoreOf(o, b), Ranked(o)) && multiset(Ranked(o)) == multiset(Listed)
  {
    PrefixInOrder(b => ScoreOf(o, b), |Listed|);
    PrefixElements(b => ScoreOf(o, b), |Listed|);
    assert Listed[..|Listed|] == Listed;
  }

  lemma HeadIsBest(score: Bearer -> Score, b: Bearer)
    requires Comparable(score)
    ensures var ranked := RankedPrefix(score, |Listed|);
            ranked != [] && (ranked[0] == b || RanksBefore(score, ranked[0], b))
  {
    PrefixInOrder(score, |Listed|);
    PrefixElements(score, |Listed|);
    IsListed(b);
    var ranked := RankedPrefix(score, |Listed|);
    assert b in ranked;
    assert b == ranked[0] || b in ranked[1..];
  }

  /** The candidate is at least as good as every bearer, offline is the candidate
      only if it beats every real bearer outright, and a tie of all of them goes to
      the first one listed. */
  lemma BestIsBest(o: Orchestrator, b: Bearer)
    requires !ScoreOf(o, Offline).Nan?
    ensures AtLeast(ScoreOf(o, Best(o)), ScoreOf(o, b))
    ensures ScoreOf(o, Best(o)).MinusInfinity? ==> Best(o).Ethernet?
    ensures Best(o).Offline? && !b.Offline? ==> !AtLeast(ScoreOf(o, b), ScoreOf(o, Offline))
  {
    HeadIsBest(c => ScoreOf(o, c), b);
    HeadIsBest(c => ScoreOf(o, c), Best(o));
    HeadIsBest(c => ScoreOf(o, c), Ethernet);
  }
}
