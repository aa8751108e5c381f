/** The orchestrator object, proved to have the effects of the functions. */
module ConnectivityObject {
  import opened Options
  import opened Connectivity

  class ConnectivityOrchestrator {
    var weights: Weights
    var hysteresis: real
    var activeBearer: Bearer
    var phase: Phase
    var metrics: Table
    var history: seq<Transition>
    var faults: set<FaultKind>
    var supported: set<Bearer>

    /** An empty profile means that every known bearer is supported. */
    constructor (weights: Weights, hysteresis: real, profile: set<Bearer>)
      ensures Contents() == Orchestrator(weights, hysteresis, Offline, Idle, DefaultTable, [], {},
                                         if profile == {} then AllBearers else profile)
    {
      this.weights, this.hysteresis := weights, hysteresis;
      activeBearer, phase, metrics := Offline, Idle, DefaultTable;
      history, faults := [], {};
      supported := if profile == {} then AllBearers else profile;
    }

    function Contents(): Orchestrator
      reads this
    {
      Orchestrator(weights, hysteresis, activeBearer, phase, metrics, history, faults, supported)
    }

    method UpdateMetrics(b: Bearer, m: Metrics) returns (accepted: bool)
      modifies this`metrics
      ensures Contents() == Connectivity.UpdateMetrics(old(Contents()), b, m)
      ensures accepted <==> b in supported || b.Offline?
    {
      if b !in supported && b != Offline {
        return false;
      }
      var stored := m;
      if b == Offline {
        stored := stored.(available := true);
      }
      metrics := metrics[b := stored];
      return true;
    }

    method InjectFault(fault: FaultKind)
      modifies this`metrics, this`faults
      ensures Contents() == Connectivity.InjectFault(old(Contents()), fault)
    {
      hide AllDown;
      faults := faults + {fault};
      if fault == DropActive && activeBearer != Offline {
        var m := Of(metrics, activeBearer);
        m := m.(available := false);
        m := m.(loss := Num(100.0));
        metrics := metrics[activeBearer := m];
      } else if fault == InflateLatency && activeBearer != Offline {
        metrics := metrics[activeBearer := Of(metrics, activeBearer).(latency := Num(5000.0))];
      } else if fault == JamWifi {
        metrics := metrics[Wifi := metrics[Wifi].(available := false, loss := Num(100.0))];
      } else if fault == DegradeActive && activeBearer != Offline {
        var m := Of(metrics, activeBearer);
        m := m.(latency := RaiseTo(m.latency, 250.0));
        m := m.(loss := RaiseTo(m.loss, 8.0));
        m := m.(signal := Some(Num(-88.0)));
        metrics := metrics[activeBearer := m];
      } else if fault == ForceOffline {
        TakeDownAll();
      }
    }

    method TakeDownAll()
      modifies this`metrics
      ensures metrics == AllDown(old(metrics))
    {
      metrics := metrics[Ethernet := Down(metrics[Ethernet])];
      metrics := metrics[Wifi := Down(metrics[Wifi])];
      metrics := metrics[Bluetooth := Down(metrics[Bluetooth])];
      metrics := metrics[Cellular := Down(metrics[Cellular])];
      metrics := metrics[NtnSimulated := Down(metrics[NtnSimulated])];
    }

    method ClearFaults()
      modifies this`faults
      ensures faults == {}
    {
      faults := {};
    }

    method TransitionTo(target: Bearer, reason: string) returns (record: Transition)
      modifies this`phase, this`activeBearer, this`history
      ensures Contents() == Connectivity.TransitionTo(old(Contents()), target, reason)
      ensures history == old(history) + [record]
      ensures record.from == old(activeBearer) && record.to == target && record.after == phase
    {
      var before := phase;
      phase := Transitioning;
      var from := activeBearer;
      var fromScore := ScoreOf(Contents(), from);
      var toScore := ScoreOf(Contents(), target);
      activeBearer := target;
      var after;
      if target == Offline {
        after := Disconnected;
      } else if Below20(toScore) {
        after := Degraded;
      } else {
        after := Connected;
      }
      phase := after;
      record := Transition(from, target, reason, fromScore, toScore, before, after);
      history := history + [record];
    }

    method Evaluate() returns (shouldSwitch: bool, reason: string)
      modifies this`phase, this`activeBearer, this`history
      ensures Contents() == Connectivity.Evaluate(old(Contents()))
      ensures reason == SwitchReason(old(Contents())) && (shouldSwitch <==> reason != "hold")
      ensures shouldSwitch <==> |history| == |old(history)| + 1
    {
      phase := Evaluating;
      var o := Contents();
      SameInputsRank(old(Contents()), o);
      var best := Best(o);
      var bestScore := ScoreOf(o, best);
      var activeScore := ScoreOf(o, activeBearer);
      shouldSwitch, reason := false, "hold";
      if best != activeBearer {
        if activeScore == MinusInfinity || !Of(metrics, activeBearer).available {
          shouldSwitch, reason := true, "active_unavailable";
        } else if AtLeast(bestScore, Plus(activeScore, hysteresis)) {
          shouldSwitch, reason := true, "better_score";
        }
      }
      if shouldSwitch {
        var _ := TransitionTo(best, reason);
      } else if activeBearer == Offline || !Of(metrics, activeBearer).available {
        phase := Disconnected;
        activeBearer := Offline;
      } else if Below20(bestScore) && activeBearer != Offline {
        phase := Degraded;
      } else {
        phase := Connected;
      }
    }

    /** Reports the transition, or one that holds the bearer and is not recorded. */
    method ApplyDecisionBearer(name: string, reason: string) returns (record: Transition)
      modifies this`phase, this`activeBearer, this`history
      ensures Contents() == ApplyDecision(old(Contents()), Decided(name), reason)
      ensures record.from == old(activeBearer) && record.to == Decided(name) && record.after == phase
      ensures history == old(history) + if record.from == record.to then [] else [record]
    {
      var target := Decided(name);
      if activeBearer != target {
        record := TransitionTo(target, reason);
        return;
      }
      if target == Offline {
        phase := Disconnected;
      } else {
        phase := Connected;
      }
      record := Transition(target, target, reason + "_hold", ScoreOf(Contents(), target), ScoreOf(Contents(), target),
                           phase, phase);
    }
  }
}
