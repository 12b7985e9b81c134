/** The OpenStack metric helpers (influxdbapi/openstack_queries.py) over an abstract
    InfluxDB oracle. */
module OpenStackQueries {
  import opened Wrappers

  /** `get_mean_metric(vdu_uuid, metric)`: the mean of a metric of a VDU over the configured
      window, or None when the window holds no data or the query fails. */
  type MeanMetric = (string, string) -> Option<real>

  const CpuUtilMetric: string := "cpu_util"
  const MemoryUtilMetric: string := "memory_util"
  const DiskUsageMetric: string := "disk.usage"
  const DiskAllocationMetric: string := "disk.allocation"

  /** Mean CPU utilisation (%), as the oracle reports it. */
  function MeanCpuUtil(getMeanMetric: MeanMetric, vduUuid: string): (r: Option<real>)
    ensures r == getMeanMetric(vduUuid, CpuUtilMetric)
  {
    getMeanMetric(vduUuid, CpuUtilMetric)
  }

  /** Mean memory utilisation (%): the oracle reports a fraction, scaled here by 100. */
  function MeanMemoryUtil(getMeanMetric: MeanMetric, vduUuid: string): (r: Option<real>)
    ensures r.None? <==> getMeanMetric(vduUuid, MemoryUtilMetric).None?
    ensures r.Some? ==> r.value / 100.0 == getMeanMetric(vduUuid, MemoryUtilMetric).value
  {
    var value := getMeanMetric(vduUuid, MemoryUtilMetric);
    if value.Some? then Some(value.value * 100.0) else value
  }

  /** Mean disk usage (bytes), as the oracle reports it. */
  function MeanDiskUsage(getMeanMetric: MeanMetric, vduUuid: string): (r: Option<real>)
    ensures r == getMeanMetric(vduUuid, DiskUsageMetric)
  {
    getMeanMetric(vduUuid, DiskUsageMetric)
  }

  /** Mean disk allocation (bytes), as the oracle reports it. */
  function MeanDiskAllocation(getMeanMetric: MeanMetric, vduUuid: string): (r: Option<real>)
    ensures r == getMeanMetric(vduUuid, DiskAllocationMetric)
  {
    getMeanMetric(vduUuid, DiskAllocationMetric)
  }

  /** Mean disk utilisation (%) from a usage and an allocation; None unless both are known
      and the allocation is positive, so it never divides by zero. */
  function MeanDiskUtil(diskUsage: Option<real>, diskAllocation: Option<real>): (r: Option<real>)
    ensures r.None? <==> diskUsage.None? || diskAllocation.None? || diskAllocation.value <= 0.0
    ensures r.Some? ==> r.value * diskAllocation.value == diskUsage.value * 100.0
  {
    if diskUsage.Some? && diskAllocation.Some? && diskAllocation.value > 0.0 then
      Some((diskUsage.value / diskAllocation.value) * 100.0)
    else
      None
  }

  /** A disk whose usage equals its allocation is 100% utilised. */
  lemma FullDiskIsHundredPercent(bytes: real)
    requires bytes > 0.0
    ensures MeanDiskUtil(Some(bytes), Some(bytes)) == Some(100.0)
  {
  }

  /** A usage within the allocation gives a percentage between 0 and 100. */
  lemma DiskUtilIsPercentage(usage: real, allocation: real)
    requires 0.0 <= usage <= allocation && allocation > 0.0
    ensures MeanDiskUtil(Some(usage), Some(allocation)).Some?
    ensures 0.0 <= MeanDiskUtil(Some(usage), Some(allocation)).value <= 100.0
  {
    var r := MeanDiskUtil(Some(usage), Some(allocation)).value;
    assert r * allocation == usage * 100.0;
    assert usage * 100.0 <= allocation * 100.0;
  }

  /** Each query reads its own metric and nothing else: two oracles that agree on that
      metric of that VDU give the same answer. */
  lemma QueriesReadOnlyTheirMetric(m1: MeanMetric, m2: MeanMetric, vduUuid: string)
    ensures m1(vduUuid, CpuUtilMetric) == m2(vduUuid, CpuUtilMetric) ==>
              MeanCpuUtil(m1, vduUuid) == MeanCpuUtil(m2, vduUuid)
    ensures m1(vduUuid, MemoryUtilMetric) == m2(vduUuid, MemoryUtilMetric) ==>
              MeanMemoryUtil(m1, vduUuid) == MeanMemoryUtil(m2, vduUuid)
    ensures m1(vduUuid, DiskUsageMetric) == m2(vduUuid, DiskUsageMetric) ==>
              MeanDiskUsage(m1, vduUuid) == MeanDiskUsage(m2, vduUuid)
    ensures m1(vduUuid, DiskAllocationMetric) == m2(vduUuid, DiskAllocationMetric) ==>
              MeanDiskAllocation(m1, vduUuid) == MeanDiskAllocation(m2, vduUuid)
  {
  }
}
