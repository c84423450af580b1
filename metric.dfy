/** Metric identities and samples, as the exporter and its probes hand them to the
    Prometheus client library: a descriptor (fully-qualified name, help, label schema),
    a constant sample built from it, and the channel samples are sent on. */
module Metric {

  /** A sample value. It is a float64 in the exporter, but it is only ever copied
      from a scanned row cell (or read off a counter) into a sample, never computed on. */
  type Value = real

  /** The namespace every metric of the exporter lives in. */
  const Namespace := "oracle"

  /** Joins `parts` with `sep` between consecutive parts. */
  function Join(parts: seq<string>, sep: string): string
  {
    if parts == [] then ""
    else if |parts| == 1 then parts[0]
    else parts[0] + sep + Join(parts[1..], sep)
  }

  /** The parts of `parts` that are not empty, in order. */
  function NonEmpty(parts: seq<string>): (r: seq<string>)
    ensures forall i | 0 <= i < |r| :: r[i] != ""
  {
    if parts == [] then []
    else if parts[0] == "" then NonEmpty(parts[1..])
    else [parts[0]] + NonEmpty(parts[1..])
  }

  /** `prometheus.BuildFQName`: the empty string when `name` is empty, otherwise the
      non-empty ones of namespace, subsystem and name joined by underscores
      (BuildFQNameJoins states it). */
  function BuildFQName(namespace: string, subsystem: string, name: string): (r: string)
    ensures r == "" <==> name == ""
    ensures name != "" ==> |name| <= |r| && r[|r| - |name|..] == name
  {
    if name == "" then ""
    else if namespace != "" && subsystem != "" then namespace + "_" + subsystem + "_" + name
    else if namespace != "" then namespace + "_" + name
    else if subsystem != "" then subsystem + "_" + name
    else name
  }

  lemma BuildFQNameJoins(namespace: string, subsystem: string, name: string)
    ensures name == "" ==> BuildFQName(namespace, subsystem, name) == ""
    ensures name != "" ==> BuildFQName(namespace, subsystem, name) == Join(NonEmpty([namespace, subsystem, name]), "_")
  {
    assert [namespace, subsystem, name][1..] == [subsystem, name];
    assert [subsystem, name][1..] == [name];
    assert [name][1..] == [];
    assert Join([name], "_") == name;
    assert Join([subsystem, name], "_") == subsystem + "_" + name;
    assert Join([namespace, name], "_") == namespace + "_" + name by {
      assert [namespace, name][1..] == [name];
    }
    assert Join([namespace, subsystem, name], "_") == namespace + "_" + (subsystem + "_" + name);
    if name != "" && namespace != "" && subsystem != "" {
      assert NonEmpty([namespace, subsystem, name]) == [namespace, subsystem, name] by {
        assert NonEmpty([name]) == [name];
        assert NonEmpty([subsystem, name]) == [subsystem, name];
      }
    }
  }

  /** Under a fixed namespace and subsystem, distinct non-empty names give distinct
      fully-qualified names: a name taken from data always opens a family of its own. */
  lemma BuildFQNameInjective(namespace: string, subsystem: string, a: string, b: string)
    requires namespace != "" && subsystem != "" && a != "" && b != ""
    ensures BuildFQName(namespace, subsystem, a) == BuildFQName(namespace, subsystem, b) <==> a == b
  {
    var prefix := namespace + "_" + subsystem + "_";
    assert BuildFQName(namespace, subsystem, a) == prefix + a;
    assert BuildFQName(namespace, subsystem, b) == prefix + b;
    if prefix + a == prefix + b {
      assert a == (prefix + a)[|prefix|..];
      assert b == (prefix + b)[|prefix|..];
    }
  }

  /** The identity of a metric family (`*prometheus.Desc`); constant labels are never used. */
  datatype Desc = Desc(fqName: string, help: string, variableLabels: seq<string>)

  /** `prometheus.GaugeValue` or `prometheus.CounterValue`. */
  datatype ValueType = GaugeValue | CounterValue

  /** One metric sent on the channel: a descriptor, a value and the label values,
      positionally matching the descriptor's label names. */
  datatype Sample = Sample(desc: Desc, valueType: ValueType, value: Value, labelValues: seq<string>)

  /** The arity check `MustNewConstMetric` makes: one label value per label name. */
  predicate WellFormed(s: Sample)
  {
    |s.labelValues| == |s.desc.variableLabels|
  }

  /** `prometheus.MustNewConstMetric(desc, prometheus.GaugeValue, value, labelValues...)`. */
  function Gauge(desc: Desc, value: Value, labelValues: seq<string>): Sample
  {
    Sample(desc, GaugeValue, value, labelValues)
  }

  /** The `chan<- prometheus.Metric` a collector sends on, seen as everything sent on it
      so far. It only ever grows at the end. */
  class Channel {
    var sent: seq<Sample>

    constructor ()
      ensures sent == []
    {
      sent := [];
    }

    /** `ch <- s` */
    method Send(s: Sample)
      modifies this
      ensures sent == old(sent) + [s]
    {
      sent := sent + [s];
    }
  }
}
