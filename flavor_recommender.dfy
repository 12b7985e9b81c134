/** The periodic flavor recommender (flavor_recommender.py): the threshold policy, the
    comparison of a proposed flavor with the deployed one, and the per-record dispatch loop. */
module FlavorRecommender {
  import opened Wrappers
  import opened Settings
  import opened Osm
  import opened Recommendations
  import opened Sequences

  // ---------------------------------------------------------------------------------------
  // Data model
  // ---------------------------------------------------------------------------------------

  /** One utilisation record of a VDU, as get_resources_consumption assembles it. The disk
      figure is the mean disk usage in bytes; every mean is None when the window had no data. */
  datatype ConsumptionRecord = ConsumptionRecord(
    vimType: Option<string>, vimName: string, vduUuid: string, vnfdUuid: string,
    meanCpuUtil: Option<real>, meanMemoryUtil: Option<real>, meanDiskUtil: Option<real>)

  /** The adjustment the policy proposes: vCPUs, GB of memory, GB of disk. */
  datatype FlavorChanges = FlavorChanges(cpu: int, memory: int, disk: int)

  const NoChanges: FlavorChanges := FlavorChanges(0, 0, 0)

  /** The disk increment the policy proposes, in GB. */
  const DiskIncrementGb: int := 10

  /** The deployed flavor of a VDU as get_vdu_info reports it: memory in GB, disk in GB.
      Every field is None when the descriptor has no VDU. */
  datatype Flavor = Flavor(memory: Option<real>, cpu: Option<int>, disk: Option<int>)

  const UnknownFlavor: Flavor := Flavor(None, None, None)

  /** The descriptor details get_vdu_info reports next to the flavor. */
  datatype VduInfo = VduInfo(
    vnfdName: Option<string>, vnfdId: Option<string>, vduName: Option<string>,
    vendor: Option<string>, version: Option<string>)

  /** One line of the proposed-flavor text: `- vCPU: n`, `- MEMORY: m MB`, `- DISK: d GB`. */
  datatype DiffLine = VCpuLine(vcpus: int) | MemoryLine(megabytes: real) | DiskLine(gigabytes: int)

  /** What compare_flavor returns: whether to recommend, and the proposed-flavor text. */
  datatype FlavorDecision = FlavorDecision(action: bool, message: seq<DiffLine>)

  /** The content of a flavor recommendation: the subject names `info.vduName`; the
      description shows the utilisation (None renders as "-"), the window, the descriptor and
      VIM, the current flavor and the proposed one. */
  datatype FlavorAdvice = FlavorAdvice(
    info: VduInfo, vnfdUuid: string,
    cpuUtil: Option<real>, memoryUtil: Option<real>, diskUtil: Option<real>,
    windowMinutes: nat, vimName: string, vimType: Option<string>,
    current: Flavor, proposal: seq<DiffLine>)

  // ---------------------------------------------------------------------------------------
  // analyze_consumption
  // ---------------------------------------------------------------------------------------

  /** The vCPU or memory step for one mean: up above the upper threshold, down below the
      lower one, nothing otherwise (both thresholds are strict). */
  function Step(value: Option<real>, upper: real, lower: real): (step: int)
    ensures step == 1 <==> value.Some? && value.value > upper
    ensures step == -1 <==> value.Some? && !(value.value > upper) && value.value < lower
    ensures step == 0 <==> value.None? || lower <= value.value <= upper
  {
    match value
    case None => 0
    case Some(v) => if v > upper then 1 else if v < lower then -1 else 0
  }

  /** The disk step: an increment above the upper threshold, and never a decrease. */
  function DiskStep(value: Option<real>, upper: real): (step: int)
    ensures step == DiskIncrementGb <==> value.Some? && value.value > upper
    ensures step == 0 <==> !(value.Some? && value.value > upper)
  {
    if value.Some? && value.value > upper then DiskIncrementGb else 0
  }

  /** The change the policy proposes for a record; only OpenStack VIMs get a non-zero one. */
  function PolicyDelta(policies: Policies, consumption: ConsumptionRecord): (d: FlavorChanges)
    ensures consumption.vimType != Some("openstack") ==> d == NoChanges
    ensures d.cpu in {-1, 0, 1} && d.memory in {-1, 0, 1} && d.disk in {0, DiskIncrementGb}
  {
    if consumption.vimType == Some("openstack") then
      FlavorChanges(
        Step(consumption.meanCpuUtil, policies.vmCpuUpper, policies.vmCpuLower),
        Step(consumption.meanMemoryUtil, policies.vmMemoryUpper, policies.vmMemoryLower),
        DiskStep(consumption.meanDiskUtil, policies.vmDiskUpper))
    else
      NoChanges
  }

  /** analyze_consumption: starts from the zero change and overwrites one field at a time. */
  method AnalyzeConsumption(policies: Policies, consumption: ConsumptionRecord)
    returns (analysis: FlavorChanges)
    ensures analysis == PolicyDelta(policies, consumption)
  {
    var vimType := consumption.vimType.GetOr("other");
    analysis := NoChanges;

    if vimType == "openstack" {
      if consumption.meanCpuUtil.Some? {
        if consumption.meanCpuUtil.value > policies.vmCpuUpper {
          analysis := analysis.(cpu := 1);
        } else if consumption.meanCpuUtil.value < policies.vmCpuLower {
          analysis := analysis.(cpu := -1);
        }
      }
      if consumption.meanMemoryUtil.Some? {
        if consumption.meanMemoryUtil.value > policies.vmMemoryUpper {
          analysis := analysis.(memory := 1);
        } else if consumption.meanMemoryUtil.value < policies.vmMemoryLower {
          analysis := analysis.(memory := -1);
        }
      }
      if consumption.meanDiskUtil.Some? {
        if consumption.meanDiskUtil.value > policies.vmDiskUpper {
          analysis := analysis.(disk := DiskIncrementGb);
        }
        // below the lower disk threshold nothing is proposed: a disk is never shrunk
      }
    }
    // kubernetes, opennebula and every other VIM type are unsupported: the change stays zero
  }

  /** With ordered thresholds, a mean exactly at a threshold proposes no change. */
  lemma ThresholdsAreStrict(policies: Policies, consumption: ConsumptionRecord, v: real)
    requires Ordered(policies)
    ensures (consumption.meanCpuUtil == Some(v) && (v == policies.vmCpuUpper || v == policies.vmCpuLower)) ==>
              PolicyDelta(policies, consumption).cpu == 0
    ensures (consumption.meanMemoryUtil == Some(v) && (v == policies.vmMemoryUpper || v == policies.vmMemoryLower)) ==>
              PolicyDelta(policies, consumption).memory == 0
    ensures (consumption.meanDiskUtil == Some(v) && (v == policies.vmDiskUpper || v == policies.vmDiskLower)) ==>
              PolicyDelta(policies, consumption).disk == 0
  {
  }

  // ---------------------------------------------------------------------------------------
  // get_vdu_info (the flavor conversion)
  // ---------------------------------------------------------------------------------------

  /** The flavor of the descriptor's first VDU, memory converted from MB to GB; the unknown
      flavor when the descriptor has no VDU. */
  function VduFlavor(vnfd: Vnfd): (flavor: Flavor)
    ensures |vnfd.vdus| == 0 <==> flavor == UnknownFlavor
    ensures |vnfd.vdus| > 0 ==>
              && flavor.cpu == Some(vnfd.vdus[0].vmFlavor.vcpuCount)
              && flavor.disk == Some(vnfd.vdus[0].vmFlavor.storageGb)
              && flavor.memory.Some?
  {
    if |vnfd.vdus| == 0 then UnknownFlavor
    else
      var f := vnfd.vdus[0].vmFlavor;
      Flavor(Some(f.memoryMb as real / 1024.0), Some(f.vcpuCount), Some(f.storageGb))
  }

  /** The memory reported in GB is the descriptor's `memory-mb` over 1024: converting it back
      to MB gives the descriptor's figure. */
  lemma VduMemoryRoundTrip(vnfd: Vnfd)
    requires |vnfd.vdus| > 0
    ensures VduFlavor(vnfd).memory.value * 1024.0 == vnfd.vdus[0].vmFlavor.memoryMb as real
  {
  }

  /** The descriptor details of get_vdu_info; the version defaults to "N/A". */
  function GetVduInfo(vnfd: Vnfd): (info: VduInfo)
    ensures |vnfd.vdus| == 0 <==> info.vduName.None?
    ensures |vnfd.vdus| == 0 ==> info == VduInfo(None, None, None, None, None)
    ensures |vnfd.vdus| > 0 ==>
              && info.vnfdName == Some(vnfd.name) && info.vnfdId == Some(vnfd.id)
              && info.vduName == Some(vnfd.vdus[0].name) && info.vendor == Some(vnfd.vendor)
              && (vnfd.version.None? ==> info.version == Some("N/A"))
              && (vnfd.version.Some? ==> info.version == vnfd.version)
  {
    if |vnfd.vdus| == 0 then VduInfo(None, None, None, None, None)
    else
      VduInfo(Some(vnfd.name), Some(vnfd.id), Some(vnfd.vdus[0].name), Some(vnfd.vendor),
              Some(vnfd.version.GetOr("N/A")))
  }

  // ---------------------------------------------------------------------------------------
  // compare_flavor
  // ---------------------------------------------------------------------------------------

  /** How many of the dimensions vCPU, memory, disk (in that order) compare_flavor works
      through before a missing flavor field raises and ends the comparison. */
  function Reached(flavor: Flavor): (n: nat)
    ensures n <= 3
  {
    if flavor.cpu.None? then 0
    else if flavor.memory.None? then 1
    else if flavor.disk.None? then 2
    else 3
  }

  /** The three proposed-flavor lines vCPU, MEMORY (in MB), DISK; a missing field reads as
      zero here, and Reached cuts such lines off. */
  function ProposedLines(flavor: Flavor, changes: FlavorChanges): (lines: seq<DiffLine>)
    ensures |lines| == 3
  {
    [ VCpuLine(flavor.cpu.GetOr(0) + changes.cpu),
      MemoryLine((flavor.memory.GetOr(0.0) + changes.memory as real) * 1024.0),
      DiskLine(flavor.disk.GetOr(0) + changes.disk) ]
  }

  /** Dimension `d` (0 vCPU, 1 memory, 2 disk) justifies a recommendation: its change is
      non-zero and its proposed value stays above the floor (more than 0 vCPUs, more than
      0.5 GB, more than 10 GB). */
  predicate Justified(flavor: Flavor, changes: FlavorChanges, d: nat): (justified: bool)
    ensures ((d == 0 && changes.cpu == 0) || (d == 1 && changes.memory == 0) || (d >= 2 && changes.disk == 0))
            ==> !justified
    ensures justified && d == 0 ==> flavor.cpu.GetOr(0) + changes.cpu >= 1
  {
    if d == 0 then flavor.cpu.GetOr(0) + changes.cpu > 0 && changes.cpu != 0
    else if d == 1 then flavor.memory.GetOr(0.0) + changes.memory as real > 0.5 && changes.memory != 0
    else flavor.disk.GetOr(0) + changes.disk > 10 && changes.disk != 0
  }

  /** The specification of compare_flavor: the lines of the dimensions reached, and an
      action exactly when one of those dimensions justifies one. */
  function FlavorDiff(flavor: Flavor, changes: FlavorChanges): (decision: FlavorDecision)
    ensures |decision.message| == Reached(flavor)
    ensures changes == NoChanges ==> !decision.action
  {
    var n := Reached(flavor);
    FlavorDecision(
      (0 < n && Justified(flavor, changes, 0)) || (1 < n && Justified(flavor, changes, 1))
        || (2 < n && Justified(flavor, changes, 2)),
      ProposedLines(flavor, changes)[..n])
  }

  /** The comparison acts exactly when one of the dimensions it reaches justifies an action,
      and its lines are the proposed lines of those dimensions, in order. */
  lemma FlavorDiffActsIffJustified(flavor: Flavor, changes: FlavorChanges)
    ensures FlavorDiff(flavor, changes).action <==>
              exists d :: 0 <= d < Reached(flavor) && Justified(flavor, changes, d)
    ensures forall i :: 0 <= i < Reached(flavor) ==>
              FlavorDiff(flavor, changes).message[i] == ProposedLines(flavor, changes)[i]
  {
    var n := Reached(flavor);
    if FlavorDiff(flavor, changes).action {
      var d: nat := if 0 < n && Justified(flavor, changes, 0) then 0
                    else if 1 < n && Justified(flavor, changes, 1) then 1 else 2;
      assert d < n && Justified(flavor, changes, d);
    }
  }

  /** compare_flavor: builds the message one line at a time and raises the action flag as it
      goes; a missing flavor field raises, and what was built so far is returned. */
  method CompareFlavor(flavor: Flavor, suggestedChanges: FlavorChanges)
    returns (action: bool, message: seq<DiffLine>)
    ensures FlavorDecision(action, message) == FlavorDiff(flavor, suggestedChanges)
  {
    message := [];
    action := false;

    // int(flavor['cpu']) raises on None
    if flavor.cpu.None? { return; }
    var cpu := flavor.cpu.value + suggestedChanges.cpu;
    message := message + [VCpuLine(cpu)];
    if cpu > 0 && suggestedChanges.cpu != 0 {
      action := true;
    }

    // float(flavor['memory']) raises on None
    if flavor.memory.None? { return; }
    var memory := flavor.memory.value + suggestedChanges.memory as real;
    message := message + [MemoryLine(memory * 1024.0)];
    if memory > 0.5 && suggestedChanges.memory != 0 {
      action := true;
    }

    // int(flavor['disk']) raises on None
    if flavor.disk.None? { return; }
    var disk := flavor.disk.value + suggestedChanges.disk;
    message := message + [DiskLine(disk)];
    if disk > 10 && suggestedChanges.disk != 0 {
      action := true;
    }
  }

  /** A complete flavor gives the three lines vCPU, MEMORY (in MB), DISK, each emitted even
      for a zero change, and an action exactly when one of the dimensions justifies it. */
  lemma CompleteFlavorDiff(flavor: Flavor, changes: FlavorChanges)
    requires flavor.cpu.Some? && flavor.memory.Some? && flavor.disk.Some?
    ensures FlavorDiff(flavor, changes).message == [
              VCpuLine(flavor.cpu.value + changes.cpu),
              MemoryLine((flavor.memory.value + changes.memory as real) * 1024.0),
              DiskLine(flavor.disk.value + changes.disk)]
    ensures FlavorDiff(flavor, changes).action <==>
              || (flavor.cpu.value + changes.cpu > 0 && changes.cpu != 0)
              || (flavor.memory.value + changes.memory as real > 0.5 && changes.memory != 0)
              || (flavor.disk.value + changes.disk > 10 && changes.disk != 0)
  {
    assert ProposedLines(flavor, changes)[..3] == ProposedLines(flavor, changes);
  }

  /** Without a flavor the comparison fails at once: no action and an empty message. */
  lemma UnknownFlavorDiff(changes: FlavorChanges)
    ensures FlavorDiff(UnknownFlavor, changes) == FlavorDecision(false, [])
  {
  }

  /** The first VDU's memory survives the MB to GB to MB round trip of the MEMORY line. */
  lemma MemoryLineRoundTrip(vnfd: Vnfd, changes: FlavorChanges)
    requires |vnfd.vdus| > 0
    ensures FlavorDiff(VduFlavor(vnfd), changes).message[1] ==
              MemoryLine((vnfd.vdus[0].vmFlavor.memoryMb + 1024 * changes.memory) as real)
  {
    var flavor := VduFlavor(vnfd);
    VduMemoryRoundTrip(vnfd);
    assert Reached(flavor) == 3;
  }

  /** A flavor without memory stops the comparison after the vCPU dimension: the message
      is the vCPU line alone (not empty), and only the vCPU change can justify an action. */
  lemma MissingMemoryKeepsVCpuLine(cpu: int, disk: Option<int>, changes: FlavorChanges)
    ensures FlavorDiff(Flavor(None, Some(cpu), disk), changes)
         == FlavorDecision(cpu + changes.cpu > 0 && changes.cpu != 0, [VCpuLine(cpu + changes.cpu)])
  {
    assert ProposedLines(Flavor(None, Some(cpu), disk), changes)[..1] == [VCpuLine(cpu + changes.cpu)];
  }

  /** A flavor without a disk stops the comparison after the memory dimension: the message
      is the vCPU and MEMORY lines, and only those two changes can justify an action. */
  lemma MissingDiskKeepsTwoLines(memory: real, cpu: int, changes: FlavorChanges)
    ensures FlavorDiff(Flavor(Some(memory), Some(cpu), None), changes).message
         == [VCpuLine(cpu + changes.cpu), MemoryLine((memory + changes.memory as real) * 1024.0)]
    ensures FlavorDiff(Flavor(Some(memory), Some(cpu), None), changes).action <==>
              || (cpu + changes.cpu > 0 && changes.cpu != 0)
              || (memory + changes.memory as real > 0.5 && changes.memory != 0)
  {
    assert ProposedLines(Flavor(Some(memory), Some(cpu), None), changes)[..2]
        == [VCpuLine(cpu + changes.cpu), MemoryLine((memory + changes.memory as real) * 1024.0)];
  }

  /** vCPU 2 with a +1 change proposes `- vCPU: 3` and recommends. */
  lemma CpuScaleUpExample()
    ensures FlavorDiff(Flavor(Some(4.0), Some(2), Some(40)), FlavorChanges(1, 0, 0)).action
    ensures FlavorDiff(Flavor(Some(4.0), Some(2), Some(40)), FlavorChanges(1, 0, 0)).message[0] == VCpuLine(3)
  {
    CompleteFlavorDiff(Flavor(Some(4.0), Some(2), Some(40)), FlavorChanges(1, 0, 0));
  }

  /** vCPU 1 with a -1 change would propose 0 vCPUs, which does not justify an action. */
  lemma CpuFloorExample()
    ensures !FlavorDiff(Flavor(Some(4.0), Some(1), Some(40)), FlavorChanges(-1, 0, 0)).action
    ensures FlavorDiff(Flavor(Some(4.0), Some(1), Some(40)), FlavorChanges(-1, 0, 0)).message[0] == VCpuLine(0)
  {
    CompleteFlavorDiff(Flavor(Some(4.0), Some(1), Some(40)), FlavorChanges(-1, 0, 0));
  }

  /** A non-OpenStack record is never recommended, whatever its utilisation. */
  lemma UnsupportedVimNeverRecommended(policies: Policies, record: ConsumptionRecord, flavor: Flavor)
    requires record.vimType != Some("openstack")
    ensures !FlavorDiff(flavor, PolicyDelta(policies, record)).action
  {
  }

  /** The disk figure of a record is a usage in bytes, compared against a percentage
      threshold: with the default thresholds, any OpenStack VDU using a megabyte or more is
      proposed 10 GB more disk, and recommended whenever its flavor has a disk. */
  lemma ByteUsageAlwaysGrowsDisk(record: ConsumptionRecord, vnfd: Vnfd)
    requires record.vimType == Some("openstack")
    requires record.meanDiskUtil.Some? && record.meanDiskUtil.value >= 1_000_000.0
    requires |vnfd.vdus| > 0 && vnfd.vdus[0].vmFlavor.storageGb > 0
    ensures PolicyDelta(DefaultPolicies, record).disk == DiskIncrementGb
    ensures Decision(DefaultPolicies, record, vnfd).action
    ensures Decision(DefaultPolicies, record, vnfd).message[2] == DiskLine(vnfd.vdus[0].vmFlavor.storageGb + DiskIncrementGb)
  {
    assert Reached(VduFlavor(vnfd)) == 3;
  }

  // ---------------------------------------------------------------------------------------
  // recommend_flavor
  // ---------------------------------------------------------------------------------------

  /** Bytes in one (decimal) GB: the disk usage is in bytes, the flavor's disk in GB. */
  const BytesPerGb: int := 1_000_000_000

  /** The disk usage rewritten as a percentage of the flavor's disk, capped at 100; applied
      only when both figures are present and non-zero (Python truthiness). */
  function NormalizedDiskUtil(usage: Option<real>, diskGb: Option<int>): (r: Option<real>)
    ensures !(usage.Some? && usage.value != 0.0 && diskGb.Some? && diskGb.value != 0) ==> r == usage
    ensures usage.Some? && usage.value != 0.0 && diskGb.Some? && diskGb.value != 0 ==> r.Some? && r.value <= 100.0
  {
    if usage.Some? && usage.value != 0.0 && diskGb.Some? && diskGb.value != 0 then
      var bytes := (diskGb.value * BytesPerGb) as real;
      var percent := usage.value * 100.0 / bytes;
      Some(if percent > 100.0 then 100.0 else percent)
    else
      usage
  }

  /** Below the cap the normalised figure is the usage as a percentage of the flavor's disk
      in bytes; at the cap the usage is at least the whole disk; a positive usage of a
      positive disk stays positive. */
  lemma NormalizedDiskUtilIsPercentOfDisk(usage: real, diskGb: int)
    requires usage != 0.0 && diskGb != 0
    ensures var r := NormalizedDiskUtil(Some(usage), Some(diskGb)).value;
            && (r < 100.0 ==> r * (diskGb * BytesPerGb) as real == usage * 100.0)
            && (diskGb > 0 && r == 100.0 ==> usage * 100.0 >= 100.0 * (diskGb * BytesPerGb) as real)
            && (diskGb > 0 && usage > 0.0 ==> r > 0.0)
  {
    var bytes := (diskGb * BytesPerGb) as real;
    var percent := usage * 100.0 / bytes;
    assert percent * bytes == usage * 100.0;
    if diskGb > 0 {
      assert bytes > 0.0;
      if percent > 100.0 {
        assert usage * 100.0 >= 100.0 * bytes;
      }
      if usage > 0.0 {
        assert percent > 0.0;
      }
    }
  }

  /** `round(v, 2) if v else '-'`: a zero or missing mean is shown as "-" (None). */
  function Displayed(value: Option<real>): (shown: Option<real>)
    ensures shown.Some? <==> value.Some? && value.value != 0.0
    ensures shown.Some? ==> shown == value
  {
    if value.Some? && value.value != 0.0 then value else None
  }

  /** The decision recommend_flavor takes on a record whose descriptor is `vnfd`. */
  function Decision(policies: Policies, record: ConsumptionRecord, vnfd: Vnfd): (decision: FlavorDecision)
    ensures record.vimType != Some("openstack") ==> !decision.action
    ensures |vnfd.vdus| == 0 ==> decision == FlavorDecision(false, [])
  {
    FlavorDiff(VduFlavor(vnfd), PolicyDelta(policies, record))
  }

  /** The record after its loop iteration: the disk figure is normalised when, and only
      when, the record was acted on. */
  function Reshaped(policies: Policies, record: ConsumptionRecord, vnfd: Vnfd): (r: ConsumptionRecord)
    ensures r.(meanDiskUtil := record.meanDiskUtil) == record
    ensures !Decision(policies, record, vnfd).action ==> r == record
  {
    if Decision(policies, record, vnfd).action then
      record.(meanDiskUtil := NormalizedDiskUtil(record.meanDiskUtil, VduFlavor(vnfd).disk))
    else
      record
  }

  /** The recommendation filed for an acted-on record (`reshaped` is its normalised form). */
  function Advice(reshaped: ConsumptionRecord, vnfd: Vnfd, proposal: seq<DiffLine>): (advice: FlavorAdvice)
    ensures advice.info.vduName.Some? <==> |vnfd.vdus| > 0
    ensures advice.info == GetVduInfo(vnfd) && advice.vnfdUuid == reshaped.vnfdUuid
    ensures advice.vimName == reshaped.vimName && advice.vimType == reshaped.vimType
    ensures advice.current == VduFlavor(vnfd) && advice.proposal == proposal
    ensures advice.cpuUtil.None? <==> reshaped.meanCpuUtil.None? || reshaped.meanCpuUtil == Some(0.0)
    ensures advice.memoryUtil.None? <==> reshaped.meanMemoryUtil.None? || reshaped.meanMemoryUtil == Some(0.0)
    ensures advice.diskUtil.None? <==> reshaped.meanDiskUtil.None? || reshaped.meanDiskUtil == Some(0.0)
    ensures advice.cpuUtil.Some? ==> advice.cpuUtil == reshaped.meanCpuUtil
    ensures advice.memoryUtil.Some? ==> advice.memoryUtil == reshaped.meanMemoryUtil
    ensures advice.diskUtil.Some? ==> advice.diskUtil == reshaped.meanDiskUtil
    ensures advice.windowMinutes == SchedulerMinutes
  {
    FlavorAdvice(
      GetVduInfo(vnfd), reshaped.vnfdUuid,
      Displayed(reshaped.meanCpuUtil), Displayed(reshaped.meanMemoryUtil), Displayed(reshaped.meanDiskUtil),
      SchedulerMinutes, reshaped.vimName, reshaped.vimType,
      VduFlavor(vnfd), proposal)
  }

  /** The issues one record produces: one when it is acted on, none otherwise. */
  function RecordIssues(policies: Policies, record: ConsumptionRecord, vnfd: Vnfd): (issues: seq<Issue<FlavorAdvice>>)
    ensures |issues| == (if Decision(policies, record, vnfd).action then 1 else 0)
    ensures forall i :: 0 <= i < |issues| ==> issues[i].project == ProjectName && issues[i].categoryId == FiledCategory
  {
    var decision := Decision(policies, record, vnfd);
    if decision.action then
      [Issue(ProjectName, Advice(Reshaped(policies, record, vnfd), vnfd, decision.message), 2)]
    else
      []
  }

  /** The issues a pass over `records` files, in record order. */
  function FlavorIssues(policies: Policies, records: seq<ConsumptionRecord>, vnfds: string -> Vnfd): (issues: seq<Issue<FlavorAdvice>>)
    decreases |records|
  {
    if records == [] then []
    else
      var last := records[|records| - 1];
      FlavorIssues(policies, records[..|records| - 1], vnfds) + RecordIssues(policies, last, vnfds(last.vnfdUuid))
  }

  /** The descriptor requests a pass over `records` makes: one per record, in order. */
  function DescriptorRequests(records: seq<ConsumptionRecord>): (calls: seq<NbiCall>)
    decreases |records|
  {
    if records == [] then []
    else DescriptorRequests(records[..|records| - 1]) + [VnfdRequest(records[|records| - 1].vnfdUuid)]
  }

  /** The pass asks the NBI for exactly one descriptor per record, in record order. */
  lemma {:induction false} DescriptorRequestsInOrder(records: seq<ConsumptionRecord>)
    ensures |DescriptorRequests(records)| == |records|
    ensures forall i :: 0 <= i < |records| ==> DescriptorRequests(records)[i] == VnfdRequest(records[i].vnfdUuid)
    decreases |records|
  {
    if records != [] {
      DescriptorRequestsInOrder(records[..|records| - 1]);
    }
  }

  /** How many of `records` are acted on. */
  function CountActionable(policies: Policies, records: seq<ConsumptionRecord>, vnfds: string -> Vnfd): (n: nat)
    decreases |records|
  {
    if records == [] then 0
    else
      var last := records[|records| - 1];
      CountActionable(policies, records[..|records| - 1], vnfds)
        + (if Decision(policies, last, vnfds(last.vnfdUuid)).action then 1 else 0)
  }

  /** The in-place rewrite of an acted-on record's disk figure, guarded by the truthiness of
      both figures. */
  method NormalizeDisk(record: ConsumptionRecord, flavor: Flavor) returns (updated: ConsumptionRecord)
    ensures updated == record.(meanDiskUtil := NormalizedDiskUtil(record.meanDiskUtil, flavor.disk))
  {
    updated := record;
    if updated.meanDiskUtil.Some? && updated.meanDiskUtil.value != 0.0 && flavor.disk.Some? && flavor.disk.value != 0 {
      var percent := updated.meanDiskUtil.value * 100.0 / (flavor.disk.value * BytesPerGb) as real;
      if percent > 100.0 {
        percent := 100.0;
      }
      updated := updated.(meanDiskUtil := Some(percent));
    }
  }

  /** The decision and the record rewrite of one iteration, once the descriptor is known:
      the policy, the comparison and, when an action is justified, the disk normalisation. */
  method DecideRecord(policies: Policies, record: ConsumptionRecord, vnfd: Vnfd)
    returns (action: bool, newFlavorDetails: seq<DiffLine>, updated: ConsumptionRecord)
    ensures FlavorDecision(action, newFlavorDetails) == Decision(policies, record, vnfd)
    ensures updated == Reshaped(policies, record, vnfd)
  {
    var proposedFlavorChanges := AnalyzeConsumption(policies, record);
    var flavor := VduFlavor(vnfd);
    action, newFlavorDetails := CompareFlavor(flavor, proposedFlavorChanges);
    updated := record;
    if action {
      updated := NormalizeDisk(updated, flavor);
    }
  }

  /** One iteration of recommend_flavor's loop: the descriptor fetch, the decision and,
      when an action is justified, one filing. Returns the record as the loop leaves it. */
  method RecommendForRecord(policies: Policies, record: ConsumptionRecord, nbi: Nbi, redmine: Redmine<FlavorAdvice>)
    returns (updated: ConsumptionRecord)
    modifies nbi, redmine
    ensures updated == Reshaped(policies, record, nbi.catalog.vnfds(record.vnfdUuid))
    ensures redmine.issued == old(redmine.issued) + RecordIssues(policies, record, nbi.catalog.vnfds(record.vnfdUuid))
    ensures nbi.calls == old(nbi.calls) + [VnfdRequest(record.vnfdUuid)]
  {
    var vnfd := nbi.GetVnfd(record.vnfdUuid);
    var action, newFlavorDetails;
    action, newFlavorDetails, updated := DecideRecord(policies, record, vnfd);
    if action {
      ActedRecordFilesAdvice(policies, record, vnfd);
      redmine.AddRecommendation(ProjectName, Advice(updated, vnfd, newFlavorDetails), 2);
    }
  }

  /** An acted-on record files exactly its advice built from the normalised record. */
  lemma ActedRecordFilesAdvice(policies: Policies, record: ConsumptionRecord, vnfd: Vnfd)
    requires Decision(policies, record, vnfd).action
    ensures RecordIssues(policies, record, vnfd)
         == [Issue(ProjectName, Advice(Reshaped(policies, record, vnfd), vnfd, Decision(policies, record, vnfd).message), FiledCategory)]
  {
  }

  /** The records as a pass leaves them, in order. */
  function ReshapedRecords(policies: Policies, records: seq<ConsumptionRecord>, vnfds: string -> Vnfd): (reshaped: seq<ConsumptionRecord>)
    decreases |records|
  {
    if records == [] then []
    else
      var last := records[|records| - 1];
      ReshapedRecords(policies, records[..|records| - 1], vnfds) + [Reshaped(policies, last, vnfds(last.vnfdUuid))]
  }

  /** The utilisation records of one polling cycle, a list whose entries recommend_flavor
      rewrites in place. */
  class ConsumptionRecords {
    var records: seq<ConsumptionRecord>

    constructor (records: seq<ConsumptionRecord>)
      ensures this.records == records
    {
      this.records := records;
    }
  }

  /** recommend_flavor: every record, in order, goes through one loop iteration; the record
      is rewritten in place and the acted-on ones are filed. */
  method RecommendFlavor(policies: Policies, consumption: ConsumptionRecords,
                         nbi: Nbi, redmine: Redmine<FlavorAdvice>)
    modifies consumption, nbi, redmine
    ensures consumption.records == ReshapedRecords(policies, old(consumption.records), nbi.catalog.vnfds)
    ensures redmine.issued == old(redmine.issued) + FlavorIssues(policies, old(consumption.records), nbi.catalog.vnfds)
    ensures nbi.calls == old(nbi.calls) + DescriptorRequests(old(consumption.records))
  {
    ghost var input := consumption.records;
    ghost var vnfds := nbi.catalog.vnfds;
    ghost var issued0 := redmine.issued;
    ghost var calls0 := nbi.calls;
    for i := 0 to |consumption.records|
      invariant consumption.records == ReshapedRecords(policies, input[..i], vnfds) + input[i..]
      invariant redmine.issued == issued0 + FlavorIssues(policies, input[..i], vnfds)
      invariant nbi.calls == calls0 + DescriptorRequests(input[..i])
    {
      PassStep(policies, input, i, vnfds);
      var record := consumption.records[i];
      var updated := RecommendForRecord(policies, record, nbi, redmine);
      consumption.records := consumption.records[i := updated];
      AppendAssociative(issued0, FlavorIssues(policies, input[..i], vnfds), RecordIssues(policies, record, vnfds(record.vnfdUuid)));
      AppendAssociative(calls0, DescriptorRequests(input[..i]), [VnfdRequest(record.vnfdUuid)]);
    }
    assert input[..|input|] == input;
  }

  /** One more record extends the filings, the descriptor requests and the rewritten records
      of a pass by those of that record. */
  lemma PassStep(policies: Policies, records: seq<ConsumptionRecord>, i: nat, vnfds: string -> Vnfd)
    requires i < |records|
    ensures |ReshapedRecords(policies, records[..i], vnfds)| == i
    ensures (ReshapedRecords(policies, records[..i], vnfds) + records[i..])[i] == records[i]
    ensures FlavorIssues(policies, records[..i + 1], vnfds) ==
              FlavorIssues(policies, records[..i], vnfds) + RecordIssues(policies, records[i], vnfds(records[i].vnfdUuid))
    ensures DescriptorRequests(records[..i + 1]) == DescriptorRequests(records[..i]) + [VnfdRequest(records[i].vnfdUuid)]
    ensures (ReshapedRecords(policies, records[..i], vnfds) + records[i..])[i := Reshaped(policies, records[i], vnfds(records[i].vnfdUuid))]
              == ReshapedRecords(policies, records[..i + 1], vnfds) + records[i + 1..]
  {
    assert records[..i + 1][..i] == records[..i];
    ReshapedRecordsLength(policies, records[..i], vnfds);
    var done := ReshapedRecords(policies, records[..i], vnfds);
    UpdateAtBoundary(done, records[i..], Reshaped(policies, records[i], vnfds(records[i].vnfdUuid)));
    assert records[i..][1..] == records[i + 1..];
  }

  /** A pass leaves as many records as it was given. */
  lemma {:induction false} ReshapedRecordsLength(policies: Policies, records: seq<ConsumptionRecord>, vnfds: string -> Vnfd)
    ensures |ReshapedRecords(policies, records, vnfds)| == |records|
    decreases |records|
  {
    if records != [] {
      ReshapedRecordsLength(policies, records[..|records| - 1], vnfds);
    }
  }

  /** A pass rewrites each record on its own, in place: the i-th record becomes the reshaped
      i-th record, and nothing but its disk figure changes. */
  lemma {:induction false} RecordsRewrittenPointwise(policies: Policies, records: seq<ConsumptionRecord>, vnfds: string -> Vnfd)
    ensures |ReshapedRecords(policies, records, vnfds)| == |records|
    ensures forall k :: 0 <= k < |records| ==>
              ReshapedRecords(policies, records, vnfds)[k] == Reshaped(policies, records[k], vnfds(records[k].vnfdUuid))
    ensures forall k :: 0 <= k < |records| ==>
              ReshapedRecords(policies, records, vnfds)[k].(meanDiskUtil := records[k].meanDiskUtil) == records[k]
    decreases |records|
  {
    if records != [] {
      var front := records[..|records| - 1];
      RecordsRewrittenPointwise(policies, front, vnfds);
      forall k | 0 <= k < |records|
        ensures ReshapedRecords(policies, records, vnfds)[k] == Reshaped(policies, records[k], vnfds(records[k].vnfdUuid))
      {
        if k < |records| - 1 {
          assert front[k] == records[k];
        }
      }
    }
  }

  /** Filing distributes over concatenation of the records: each record is handled on its
      own, with no memory of the others. */
  lemma {:induction false} FlavorIssuesAppend(policies: Policies, s: seq<ConsumptionRecord>, t: seq<ConsumptionRecord>, vnfds: string -> Vnfd)
    ensures FlavorIssues(policies, s + t, vnfds) == FlavorIssues(policies, s, vnfds) + FlavorIssues(policies, t, vnfds)
    decreases |t|
  {
    if t == [] {
      assert s + t == s;
    } else {
      var t' := t[..|t| - 1];
      assert (s + t)[..|s + t| - 1] == s + t';
      assert (s + t)[|s + t| - 1] == t[|t| - 1];
      FlavorIssuesAppend(policies, s, t', vnfds);
    }
  }

  /** Exactly one recommendation per acted-on record, none for the others, all in the flavor
      project under category 2. */
  lemma {:induction false} OneIssuePerActionableRecord(policies: Policies, records: seq<ConsumptionRecord>, vnfds: string -> Vnfd)
    ensures |FlavorIssues(policies, records, vnfds)| == CountActionable(policies, records, vnfds)
    ensures forall i :: 0 <= i < |FlavorIssues(policies, records, vnfds)| ==>
              FlavorIssues(policies, records, vnfds)[i].project == ProjectName &&
              FlavorIssues(policies, records, vnfds)[i].categoryId == FiledCategory
    decreases |records|
  {
    if records != [] {
      OneIssuePerActionableRecord(policies, records[..|records| - 1], vnfds);
    }
  }

  /** No deduplication: a second pass over the same utilisation snapshot files every
      recommendation of the first pass again. */
  lemma NoDeduplication(policies: Policies, snapshot: seq<ConsumptionRecord>, vnfds: string -> Vnfd)
    ensures FlavorIssues(policies, snapshot + snapshot, vnfds) ==
              FlavorIssues(policies, snapshot, vnfds) + FlavorIssues(policies, snapshot, vnfds)
  {
    FlavorIssuesAppend(policies, snapshot, snapshot, vnfds);
  }

  /** Two scheduled cycles against an unchanged snapshot: each cycle re-reads the snapshot
      into fresh records, and every recommendation is filed twice. */
  method TwoCycles(policies: Policies, snapshot: seq<ConsumptionRecord>, nbi: Nbi, redmine: Redmine<FlavorAdvice>)
    modifies nbi, redmine
    ensures redmine.issued == old(redmine.issued) + FlavorIssues(policies, snapshot, nbi.catalog.vnfds)
                                                  + FlavorIssues(policies, snapshot, nbi.catalog.vnfds)
    ensures nbi.calls == old(nbi.calls) + DescriptorRequests(snapshot) + DescriptorRequests(snapshot)
  {
    var first := new ConsumptionRecords(snapshot);
    RecommendFlavor(policies, first, nbi, redmine);
    var second := new ConsumptionRecords(snapshot);
    RecommendFlavor(policies, second, nbi, redmine);
  }
}
