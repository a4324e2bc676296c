/** The exporter object: the source URL and the three gauges it owns, the
    in-place bean scan of its collect step, and the order in which it describes
    and emits its gauges. */
module NameNodeExporter {
  import opened Json
  import opened BeanScan

  /** Prefix of every metric name this exporter publishes. */
  const Namespace: string := "namenode"

  /** A gauge descriptor: namespace-qualified name and help text. */
  datatype Desc = Desc(fqName: string, help: string)

  /** One emitted gauge reading. */
  datatype Sample = Sample(desc: Desc, value: real)

  /** The gauges in the order they are declared, described and emitted. */
  const GaugeNames: seq<string> := [MissingBlocksKey, CapacityTotalKey, BlocksTotalKey]

  /** The descriptor of the gauge called `name`: its help text is its name. */
  function GaugeDesc(name: string): (d: Desc)
  {
    Desc(Namespace + "_" + name, name)
  }

  /** The three gauges of one collector are registered under distinct
      fully-qualified names, `namenode_MissingBlocks`, `namenode_CapacityTotal`
      and `namenode_BlocksTotal`. */
  lemma GaugeNamesDistinct()
    ensures GaugeDesc(GaugeNames[0]).fqName == "namenode_MissingBlocks"
    ensures GaugeDesc(GaugeNames[1]).fqName == "namenode_CapacityTotal"
    ensures GaugeDesc(GaugeNames[2]).fqName == "namenode_BlocksTotal"
    ensures forall i, j :: 0 <= i < j < |GaugeNames| ==>
      GaugeDesc(GaugeNames[i]).fqName != GaugeDesc(GaugeNames[j]).fqName
  {
  }

  /** The gauge values in emission order. */
  function Values(g: Gauges): (vs: seq<real>)
  {
    [g.missingBlocks, g.capacityTotal, g.blocksTotal]
  }

  class Exporter {
    var url: string
    var missingBlocks: real
    var capacityTotal: real
    var blocksTotal: real

    /** The three gauge fields as one value. */
    function Snapshot(): (g: Gauges)
      reads this
    {
      Gauges(missingBlocks, capacityTotal, blocksTotal)
    }

    /** A new exporter for `url`; a fresh gauge reads zero. */
    constructor (url: string)
      ensures this.url == url
      ensures Snapshot() == Gauges(0.0, 0.0, 0.0)
    {
      this.url := url;
      missingBlocks := 0.0;
      capacityTotal := 0.0;
      blocksTotal := 0.0;
    }

    /** The descriptors of the three gauges, in declaration order. */
    method Describe() returns (descs: seq<Desc>)
      ensures |descs| == |GaugeNames|
      ensures forall i :: 0 <= i < |descs| ==> descs[i] == GaugeDesc(GaugeNames[i])
    {
      descs := [GaugeDesc(MissingBlocksKey), GaugeDesc(CapacityTotalKey), GaugeDesc(BlocksTotalKey)];
    }

    /** The current value of each gauge, in the same order as `Describe`. */
    method Emit() returns (samples: seq<Sample>)
      ensures |samples| == |GaugeNames|
      ensures forall i :: 0 <= i < |samples| ==>
        samples[i] == Sample(GaugeDesc(GaugeNames[i]), Values(Snapshot())[i])
    {
      samples := [
        Sample(GaugeDesc(MissingBlocksKey), missingBlocks),
        Sample(GaugeDesc(CapacityTotalKey), capacityTotal),
        Sample(GaugeDesc(BlocksTotalKey), blocksTotal)
      ];
    }

    /** One pass of the loop body on one list entry: the type assertion to an
        object, the name comparison, and for the target the three gauge
        updates in order, each after its own number assertion. */
    method ApplyBean(bean: Json) returns (ok: bool)
      modifies this
      ensures url == old(url)
      ensures Outcome(Snapshot(), ok) == Step(bean, old(Snapshot()))
    {
      if !bean.JObj? {
        return false;
      }
      var fields := bean.fields;
      if Get(fields, "name") == JStr(TargetBean) {
        var m := Get(fields, MissingBlocksKey);
        if !m.JNum? {
          return false;
        }
        missingBlocks := m.n;
        var c := Get(fields, CapacityTotalKey);
        if !c.JNum? {
          return false;
        }
        capacityTotal := c.n;
        var b := Get(fields, BlocksTotalKey);
        if !b.JNum? {
          return false;
        }
        blocksTotal := b.n;
      }
      ok := true;
    }

    /** The bean scan, run on the gauge fields themselves. `ok` is false where
        the scan would fail a type assertion; the gauges then keep whatever the
        loop had set before that point. The URL is never touched. */
    method Scan(doc: Json) returns (ok: bool)
      modifies this
      ensures url == old(url)
      ensures Outcome(Snapshot(), ok) == ScanDoc(doc, old(Snapshot()))
    {
      ghost var g0 := Snapshot();
      if !doc.JObj? {
        return false;
      }
      var list := Get(doc.fields, "beans");
      if !list.JArr? {
        return false;
      }
      var beans := list.items;
      var i := 0;
      while i < |beans|
        invariant 0 <= i <= |beans|
        invariant url == old(url)
        invariant ScanBeans(beans[..i], g0) == Outcome(Snapshot(), true)
      {
        assert beans[..i + 1][..i] == beans[..i];
        var stepOk := ApplyBean(beans[i]);
        if !stepOk {
          FailureIsFinal(beans, g0, i + 1);
          return false;
        }
        i := i + 1;
      }
      assert beans[..i] == beans;
      ok := true;
    }

    /** One collect cycle on an already decoded document: the scan, then the
        three gauges in descriptor order. A failed scan emits nothing. */
    method Collect(doc: Json) returns (samples: seq<Sample>, ok: bool)
      modifies this
      ensures url == old(url)
      ensures Outcome(Snapshot(), ok) == ScanDoc(doc, old(Snapshot()))
      ensures !ok ==> samples == []
      ensures ok ==> |samples| == |GaugeNames|
      ensures ok ==> forall i :: 0 <= i < |samples| ==>
        samples[i] == Sample(GaugeDesc(GaugeNames[i]), Values(Snapshot())[i])
    {
      ok := Scan(doc);
      if ok {
        samples := Emit();
      } else {
        samples := [];
      }
    }
  }
}
