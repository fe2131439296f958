/** internal/observability/depmetrics.go: what a dependency check leaves behind in the metrics. */
module DepMetrics {
  import opened Prelude
  import opened Checker

  /** The gauge value and the histogram's observations of every label seen so far. */
  datatype Metrics = Metrics(up: map<string, int>, observed: map<string, seq<Time>>)

  const NO_METRICS := Metrics(map[], map[])

  function Observations(m: Metrics, name: string): seq<Time> {
    if name in m.observed then m.observed[name] else []
  }

  function Recorded(m: Metrics, name: string, healthy: bool, d: Time): Metrics {
    Metrics(
      m.up[name := if healthy then 1 else 0],
      m.observed[name := Observations(m, name) + [d]])
  }

  function RecordedStatus(m: Metrics, st: Status): Metrics {
    Recorded(m, st.name, st.healthy, st.durationMs * 1_000_000)
  }

  function RecordedAll(m: Metrics, statuses: seq<Status>): Metrics {
    if statuses == [] then m
    else RecordedStatus(RecordedAll(m, statuses[..|statuses| - 1]), statuses[|statuses| - 1])
  }

  class DependencyMetrics {
    var up: map<string, int>
    var observed: map<string, seq<Time>>

    function View(): Metrics
      reads this
    {
      Metrics(up, observed)
    }

    constructor ()
      ensures View() == NO_METRICS
    {
      up, observed := map[], map[];
    }

    method RecordDependencyCheck(name: string, healthy: bool, d: Time)
      modifies this
      ensures View() == Recorded(old(View()), name, healthy, d)
      ensures name in up && up[name] == if healthy then 1 else 0
      ensures name in observed && observed[name] == old(if name in observed then observed[name] else []) + [d]
      ensures up - {name} == old(up) - {name} && observed - {name} == old(observed) - {name}
    {
      var value := 0;
      if healthy {
        value := 1;
      }
      up := up[name := value];
      if name !in observed {
        observed := observed[name := []];
      }
      observed := observed[name := observed[name] + [d]];
    }
  }
}
