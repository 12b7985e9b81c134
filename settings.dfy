/** The immutable configuration the decision engine reads (settings.py). */
module Settings {
  import opened Wrappers

  /** The VM resource thresholds, in percent (settings.py, POLICIES). */
  datatype Policies = Policies(
    vmCpuUpper: real, vmCpuLower: real,
    vmMemoryUpper: real, vmMemoryLower: real,
    vmDiskUpper: real, vmDiskLower: real)

  /** The defaults used when no environment variable overrides them. */
  const DefaultPolicies: Policies := Policies(60.0, 20.0, 80.0, 20.0, 80.0, 20.0)

  /** Every lower threshold is at most its upper threshold. */
  predicate Ordered(p: Policies) {
    p.vmCpuLower <= p.vmCpuUpper && p.vmMemoryLower <= p.vmMemoryUpper && p.vmDiskLower <= p.vmDiskUpper
  }

  /** The default thresholds are ordered, so every fact stated for ordered thresholds
      holds of them. */
  lemma DefaultsOrdered()
    ensures Ordered(DefaultPolicies)
  {
  }

  /** The polling interval, which is also the width of the metric window, in minutes. */
  const SchedulerMinutes: nat := 30

  /** The Redmine project of the flavor recommendations. */
  const ProjectName: string := "resource-recommendations"

  /** The Redmine project of the scaling-group advisories. */
  const ScalingProjectName: string := "scaling-groups-capacity"

  /** The issue category that every recommendation is filed under. */
  const FiledCategory: int := 2

  /** The VIM type to Redmine issue category table (utils.py, get_redmine_issues_categories). */
  function IssueCategory(vimType: string): (c: Option<int>)
    ensures c.Some? <==> vimType in {"openstack", "kubernetes", "opennebula"}
    ensures vimType == "openstack" ==> c == Some(FiledCategory)
  {
    if vimType == "openstack" then Some(2)
    else if vimType == "kubernetes" then Some(3)
    else if vimType == "opennebula" then Some(4)
    else None
  }
}
