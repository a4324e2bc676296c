/** The bean scan of the namenode exporter's collect step, as a function of the
    decoded document and the three gauge values before the scan. The class in
    module NameNodeExporter runs the same scan as a loop over its own fields and
    is proved to agree with `ScanDoc`. */
module BeanScan {
  import opened Json

  /** The `name` of the one bean whose numbers are exported. */
  const TargetBean: string := "Hadoop:service=NameNode,name=FSNamesystem"

  /** The bean attributes read, in the order they are read; each is also the
      name of the gauge it feeds. */
  const MissingBlocksKey: string := "MissingBlocks"
  const CapacityTotalKey: string := "CapacityTotal"
  const BlocksTotalKey: string := "BlocksTotal"

  /** The exporter's three gauge values. */
  datatype Gauges = Gauges(missingBlocks: real, capacityTotal: real, blocksTotal: real)

  /** The state a scan leaves behind: the gauge values, and whether the scan ran
      to its end (`ok`) or stopped at a failed type assertion. */
  datatype Outcome = Outcome(gauges: Gauges, ok: bool)

  /** A bean is the target when it is an object whose `name` equals the target
      string. The comparison is an interface comparison, so a missing or
      non-string `name` is simply unequal, never an error. */
  predicate IsTarget(bean: Json)
    ensures IsTarget(bean) <==>
      bean.JObj? && "name" in bean.fields && bean.fields["name"].JStr? && bean.fields["name"].s == TargetBean
  {
    bean.JObj? && Get(bean.fields, "name") == JStr(TargetBean)
  }

  /** The three numbers of a bean, when all three are present as numbers. */
  function ReadFields(fields: map<string, Json>): (r: Option<Gauges>)
    ensures r.Some? <==>
      Get(fields, MissingBlocksKey).JNum? && Get(fields, CapacityTotalKey).JNum? && Get(fields, BlocksTotalKey).JNum?
    ensures r.Some? ==>
      JNum(r.value.missingBlocks) == fields[MissingBlocksKey] &&
      JNum(r.value.capacityTotal) == fields[CapacityTotalKey] &&
      JNum(r.value.blocksTotal) == fields[BlocksTotalKey]
  {
    match (AsNumber(Get(fields, MissingBlocksKey)), AsNumber(Get(fields, CapacityTotalKey)), AsNumber(Get(fields, BlocksTotalKey)))
    case (Some(m), Some(c), Some(b)) => Some(Gauges(m, c, b))
    case _ => None
  }

  /** An entry the scan passes without failing: an object, and, if it is the
      target, one carrying all three numbers. */
  predicate WellFormedBean(bean: Json) {
    bean.JObj? && (IsTarget(bean) ==> ReadFields(bean.fields).Some?)
  }

  /** One iteration of the loop over the bean list. A non-object entry fails
      before anything is touched. In the target bean the three gauges are set
      one after the other, and the first attribute that is missing or not a
      number fails the step, after the gauges before it have been set. */
  function Step(bean: Json, g: Gauges): (r: Outcome)
    ensures r.ok <==> WellFormedBean(bean)
    ensures r.ok && IsTarget(bean) ==> Some(r.gauges) == ReadFields(bean.fields)
    ensures !IsTarget(bean) ==> r.gauges == g
    ensures r.gauges.missingBlocks ==
      if IsTarget(bean) && Get(bean.fields, MissingBlocksKey).JNum?
      then bean.fields[MissingBlocksKey].n else g.missingBlocks
    ensures r.gauges.capacityTotal ==
      if IsTarget(bean) && Get(bean.fields, MissingBlocksKey).JNum? && Get(bean.fields, CapacityTotalKey).JNum?
      then bean.fields[CapacityTotalKey].n else g.capacityTotal
    ensures r.gauges.blocksTotal ==
      if IsTarget(bean) && ReadFields(bean.fields).Some?
      then bean.fields[BlocksTotalKey].n else g.blocksTotal
  {
    if !bean.JObj? then Outcome(g, false)
    else if !IsTarget(bean) then Outcome(g, true)
    else
      match AsNumber(Get(bean.fields, MissingBlocksKey))
      case None => Outcome(g, false)
      case Some(m) =>
        var g1 := g.(missingBlocks := m);
        match AsNumber(Get(bean.fields, CapacityTotalKey))
        case None => Outcome(g1, false)
        case Some(c) =>
          var g2 := g1.(capacityTotal := c);
          match AsNumber(Get(bean.fields, BlocksTotalKey))
          case None => Outcome(g2, false)
          case Some(b) => Outcome(g2.(blocksTotal := b), true)
  }

  /** The loop over the bean list, in list order; the first failing entry
      stops it and the gauges stay as they were at that point. Defined on the
      last entry so that `beans[..i]` is the state after `i` iterations.
      The loop runs to its end exactly when every entry is well formed. */
  function ScanBeans(beans: seq<Json>, g: Gauges): (r: Outcome)
    ensures r.ok <==> forall i :: 0 <= i < |beans| ==> WellFormedBean(beans[i])
    decreases |beans|
  {
    if beans == [] then Outcome(g, true)
    else
      assert forall i :: 0 <= i < |beans| - 1 ==> beans[..|beans| - 1][i] == beans[i];
      var prev := ScanBeans(beans[..|beans| - 1], g);
      if !prev.ok then prev else Step(beans[|beans| - 1], prev.gauges)
  }

  /** The whole scan of a decoded document: the root must be an object and its
      `beans` entry an array, otherwise the scan fails before any gauge is
      touched. A document that did not decode is `JNull` here. */
  function ScanDoc(doc: Json, g: Gauges): (r: Outcome)
    ensures !doc.JObj? ==> r == Outcome(g, false)
    ensures doc.JObj? && !Get(doc.fields, "beans").JArr? ==> r == Outcome(g, false)
    ensures doc.JObj? && "beans" in doc.fields && doc.fields["beans"].JArr? ==>
      r == ScanBeans(doc.fields["beans"].items, g)
  {
    if !doc.JObj? then Outcome(g, false)
    else
      match Get(doc.fields, "beans")
      case JArr(beans) => ScanBeans(beans, g)
      case _ => Outcome(g, false)
  }

  /** Once the loop has failed, later entries change nothing. */
  lemma {:induction false} FailureIsFinal(beans: seq<Json>, g: Gauges, n: nat)
    requires n <= |beans|
    requires !ScanBeans(beans[..n], g).ok
    ensures ScanBeans(beans, g) == ScanBeans(beans[..n], g)
  {
    if n < |beans| {
      var last := |beans| - 1;
      assert beans[..last][..n] == beans[..n];
      FailureIsFinal(beans[..last], g, n);
    } else {
      assert beans[..n] == beans;
    }
  }

  /** When no entry is the target, the gauges end as they began, whether or
      not the scan fails on the way. */
  lemma {:induction false} NoMatchKeepsGauges(beans: seq<Json>, g: Gauges)
    requires forall i :: 0 <= i < |beans| ==> !IsTarget(beans[i])
    ensures ScanBeans(beans, g).gauges == g
  {
    if beans != [] {
      var last := |beans| - 1;
      assert forall i :: 0 <= i < last ==> beans[..last][i] == beans[i];
      NoMatchKeepsGauges(beans[..last], g);
    }
  }

  /** In a scan that runs to its end, the gauges hold the three numbers of the
      last target entry in list order. */
  lemma {:induction false} LastMatchWins(beans: seq<Json>, g: Gauges, k: nat)
    requires k < |beans| && IsTarget(beans[k])
    requires forall j :: k < j < |beans| ==> !IsTarget(beans[j])
    requires ScanBeans(beans, g).ok
    ensures Some(ScanBeans(beans, g).gauges) == ReadFields(beans[k].fields)
  {
    var last := |beans| - 1;
    var prev := ScanBeans(beans[..last], g);
    if !prev.ok {
      // the scan of the whole list would have stopped here as well
      assert false;
    }
    if k < last {
      assert forall j :: k < j < last ==> beans[..last][j] == beans[j];
      LastMatchWins(beans[..last], g, k);
    }
  }

  /** With exactly one target entry, every entry well formed, the scan runs to
      its end and each gauge gets the attribute of the same name. */
  lemma SingleMatch(beans: seq<Json>, g: Gauges, k: nat)
    requires k < |beans| && IsTarget(beans[k])
    requires forall j :: 0 <= j < |beans| && j != k ==> !IsTarget(beans[j])
    requires forall j :: 0 <= j < |beans| ==> WellFormedBean(beans[j])
    ensures ScanBeans(beans, g).ok
    ensures JNum(ScanBeans(beans, g).gauges.missingBlocks) == Get(beans[k].fields, MissingBlocksKey)
    ensures JNum(ScanBeans(beans, g).gauges.capacityTotal) == Get(beans[k].fields, CapacityTotalKey)
    ensures JNum(ScanBeans(beans, g).gauges.blocksTotal) == Get(beans[k].fields, BlocksTotalKey)
  {
    LastMatchWins(beans, g, k);
  }

  /** The scan stops at its first ill-formed entry `i`: what the gauges hold is
      what the loop had reached after `i` entries, updated by the part of entry
      `i` that ran before the failing assertion. A non-object entry changes
      nothing, so earlier target entries keep their effect. */
  lemma FirstFailureStops(beans: seq<Json>, g: Gauges, i: nat)
    requires i < |beans| && !WellFormedBean(beans[i])
    requires forall j :: 0 <= j < i ==> WellFormedBean(beans[j])
    ensures ScanBeans(beans, g) == Step(beans[i], ScanBeans(beans[..i], g).gauges)
    ensures !ScanBeans(beans, g).ok
    ensures !beans[i].JObj? ==> ScanBeans(beans, g).gauges == ScanBeans(beans[..i], g).gauges
  {
    assert beans[..i + 1][..i] == beans[..i];
    assert forall j :: 0 <= j < i ==> beans[..i][j] == beans[j];
    FailureIsFinal(beans, g, i + 1);
  }

  /** The one-bean document `{"beans": [bean]}`. */
  function OneBeanDoc(bean: map<string, Json>): (doc: Json) {
    JObj(map["beans" := JArr([JObj(bean)])])
  }

  /** A document holding only the target bean with all three numbers sets the
      gauges to those numbers, whatever they held before. */
  lemma ScenarioSingleBean(g: Gauges)
    ensures ScanDoc(OneBeanDoc(map[
      "name" := JStr(TargetBean),
      MissingBlocksKey := JNum(3.0),
      CapacityTotalKey := JNum(1000.0),
      BlocksTotalKey := JNum(50.0)]), g) == Outcome(Gauges(3.0, 1000.0, 50.0), true)
  {
    var fields := map[
      "name" := JStr(TargetBean),
      MissingBlocksKey := JNum(3.0),
      CapacityTotalKey := JNum(1000.0),
      BlocksTotalKey := JNum(50.0)];
    assert fields["name"] == JStr(TargetBean);
    assert fields[MissingBlocksKey] == JNum(3.0);
    assert fields[CapacityTotalKey] == JNum(1000.0);
    assert fields[BlocksTotalKey] == JNum(50.0);
    var bean := JObj(fields);
    assert [bean][..0] == [];
    assert ScanBeans([bean], g) == Step(bean, g);
    assert IsTarget(bean);
    assert ScanDoc(OneBeanDoc(fields), g) == ScanBeans([bean], g);
  }

  /** A target bean whose `CapacityTotal` is a string fails the scan with the
      new `MissingBlocks` already set and the old `BlocksTotal` kept. */
  lemma ScenarioBadCapacity(g: Gauges)
    ensures ScanDoc(OneBeanDoc(map[
      "name" := JStr(TargetBean),
      MissingBlocksKey := JNum(3.0),
      CapacityTotalKey := JStr("1000"),
      BlocksTotalKey := JNum(50.0)]), g) == Outcome(g.(missingBlocks := 3.0), false)
  {
    var fields := map[
      "name" := JStr(TargetBean),
      MissingBlocksKey := JNum(3.0),
      CapacityTotalKey := JStr("1000"),
      BlocksTotalKey := JNum(50.0)];
    assert fields["name"] == JStr(TargetBean);
    assert fields[MissingBlocksKey] == JNum(3.0);
    assert fields[CapacityTotalKey] == JStr("1000");
    var bean := JObj(fields);
    assert [bean][..0] == [];
    assert ScanBeans([bean], g) == Step(bean, g);
    assert IsTarget(bean);
    assert ScanDoc(OneBeanDoc(fields), g) == ScanBeans([bean], g);
  }
}
