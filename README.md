# Recommender decision engine — a Dafny model

This project models the decision engine of the 5G-MEDIA MAPE recommender. It has two
pipelines and one group of metric helpers.

- **Flavor recommendations** (`flavor_recommender.py`):
  - `analyze_consumption` turns one VDU's mean CPU, memory and disk utilisation into a
    flavor change, using the threshold policy.
  - `get_vdu_info` reads the current flavor from the descriptor's first VDU.
  - `compare_flavor` builds the proposed flavor line by line and decides whether an
    action is justified.
  - `recommend_flavor` walks the utilisation records. For every acted-on record it
    normalises the disk figure in place and files exactly one Redmine issue.
- **Scaling-group advisories** (`osm_kafka_subscriber.py`):
  - Every message of the OSM `NS` topic passes through a short-circuit filter chain:
    key `scaled`, state `FAILED`, operation id present, `SCALE_OUT`, and a non-zero
    member index.
  - The VNF record of the scaled member is then found by linear search.
  - `recommend_vnfd_scaling_group` proposes the first scaling group's
    `max-instance-count + 1`.
- **OpenStack metric helpers** (`influxdbapi/openstack_queries.py`): option-valued
  arithmetic over an abstract mean-metric oracle.

### How the collaborators are modelled

- **InfluxDB** is the oracle `OpenStackQueries.MeanMetric`.
- **The OSM NBI** is the class `Osm.Nbi`:
  - it answers from a `Catalog` of lookup functions;
  - it logs every request in the ghost sequence `calls`.
- **Redmine** is the class `Recommendations.Redmine`, whose ghost sequence `issued` records
  every issue created.
- **The Kafka topic** is a finite sequence of decoded messages.
- **The thresholds** are the immutable record `Settings.Policies`. `DefaultPolicies` holds
  the defaults of settings.py:62-68.
- **The polled records** are a `seq` field of the class `ConsumptionRecords`, which
  `RecommendFlavor` rewrites in place.

### Modules

| module | file | form |
|---|---|---|
| `Wrappers` | `wrappers.dfy` | — |
| `Sequences` | `sequences.dfy` | — |
| `Settings` | `settings.dfy` | — |
| `Osm` | `osm.dfy` | — |
| `Recommendations` | `recommendations.dfy` | — |
| `OpenStackQueries` | `openstack_queries.dfy` | pure functions |
| `FlavorRecommender` | `flavor_recommender.dfy` | imperative methods, each proved against a specification function |
| `OsmKafkaSubscriber` | `osm_kafka_subscriber.dfy` | same as `FlavorRecommender` |

### Modelling decisions

- **Deltas are integers.** `analyze_consumption` never yields `None`, so the `is not None`
  guards of `compare_flavor` always hold. `FlavorChanges` therefore carries `int` deltas.
- **A missing flavor field ends the comparison.** In `compare_flavor`, `int(None)` raises,
  the `finally` clause returns what was built so far, and the message is cut short at that
  dimension (`Reached`).
- **The member index can be of three kinds.** `VnfIndex` distinguishes an absent field, a
  number and a numeral string, because Python's `vnf_index == 0` is false for the string
  `"0"`.
- **A descriptor without `version` files nothing.** In `recommend_vnfd_scaling_group` the
  lookup raises a `KeyError` while the description is formatted, the exception is
  swallowed, and no issue is filed.
- **Advice is abstract.** The subject and description texts are modelled as records of the
  values they show: `FlavorAdvice` and `ScalingAdvice`.
- **The proposal is a line record.** The proposed-flavor text is a sequence of `DiffLine`s.

## Model

| member | source | states |
|---|---|---|
| Settings.IssueCategory | utils.py:27-28 | Exactly openstack, kubernetes and opennebula have a category; openstack's is 2, the category every issue is filed under |
| Settings.DefaultsOrdered | settings.py:62-68 | The default thresholds (60/20, 80/20, 80/20) are ordered, so the facts stated for ordered thresholds apply to them |
| Recommendations.Redmine.AddRecommendation | utils.py:10-24 | Every call adds exactly one issue, with the given project, advice and category, after the earlier ones; there is no deduplication |
| Osm.Nbi.GetOperation | nbiapi/operation.py:51-77 | Answers the operation record from the catalog and logs one operation request |
| Osm.Nbi.BearerToken | osm_kafka_subscriber.py:60-61 | Logs one token request and answers nothing else |
| Osm.Nbi.GetVnfList | osm_kafka_subscriber.py:78-80 | Answers the catalog's VNF records of the NS and logs one list request for that NS |
| Osm.Nbi.GetVnf | osm_kafka_subscriber.py:86-87 | Answers the catalog's VNF record for that id and logs one VNF request |
| Osm.Nbi.GetVimAccount | osm_kafka_subscriber.py:94-97 | Answers the catalog's VIM account for that id and logs one VIM request |
| Osm.Nbi.GetVnfd | flavor_recommender.py:213-215 | Answers the descriptor from the catalog and logs one descriptor request |
| OpenStackQueries.MeanCpuUtil | influxdbapi/openstack_queries.py:15 | The oracle's `cpu_util` mean, unchanged |
| OpenStackQueries.MeanMemoryUtil | influxdbapi/openstack_queries.py:26-29 | None exactly when the oracle has no `memory_util` mean; otherwise that mean times 100 |
| OpenStackQueries.MeanDiskUsage | influxdbapi/openstack_queries.py:42 | The oracle's `disk.usage` mean, unchanged |
| OpenStackQueries.MeanDiskAllocation | influxdbapi/openstack_queries.py:54 | The oracle's `disk.allocation` mean, unchanged |
| OpenStackQueries.MeanDiskUtil | influxdbapi/openstack_queries.py:67-74 | None exactly when the usage or the allocation is missing or the allocation is not positive (never a division by zero); otherwise usage / allocation × 100 |
| OpenStackQueries.FullDiskIsHundredPercent | influxdbapi/openstack_queries.py:70 | A usage equal to the allocation gives 100 |
| OpenStackQueries.DiskUtilIsPercentage | influxdbapi/openstack_queries.py:69-70 | A usage within a positive allocation gives a value in [0, 100] |
| OpenStackQueries.QueriesReadOnlyTheirMetric | influxdbapi/openstack_queries.py:6-54 | Each query depends only on its own metric of its own VDU |
| FlavorRecommender.Step | flavor_recommender.py:174-184 | +1 iff the mean is above the upper threshold; -1 iff it is not above the upper and is below the lower threshold; 0 iff it is missing or within [lower, upper] |
| FlavorRecommender.DiskStep | flavor_recommender.py:186-191 | +10 GB iff the mean is above the upper threshold, 0 otherwise: a disk is never shrunk |
| FlavorRecommender.PolicyDelta | flavor_recommender.py:169-199 | The zero change for any VIM type other than openstack, a missing one included; cpu and memory deltas in {-1, 0, 1}, disk delta in {0, 10} |
| FlavorRecommender.AnalyzeConsumption | flavor_recommender.py:160-199 | The field-by-field overwrite of the zero change computes exactly the policy's change |
| FlavorRecommender.ThresholdsAreStrict | flavor_recommender.py:175-189 | With ordered thresholds, a mean exactly at a threshold proposes no change in any dimension |
| FlavorRecommender.UnsupportedVimNeverRecommended | flavor_recommender.py:192-197 | A non-OpenStack record never leads to an action, whatever its means and flavor |
| FlavorRecommender.ByteUsageAlwaysGrowsDisk | flavor_recommender.py:186-191 | With the default thresholds, an OpenStack record using a megabyte or more of disk is proposed 10 GB more and recommended whenever its flavor has a disk: the figure is in bytes, the threshold a percentage |
| FlavorRecommender.VduFlavor | flavor_recommender.py:216-226 | The all-None flavor iff the descriptor has no VDU; otherwise the first VDU's vCPU count and disk, and a memory figure |
| FlavorRecommender.VduMemoryRoundTrip | flavor_recommender.py:225 | The memory in GB times 1024 is the first VDU's `memory-mb` |
| FlavorRecommender.GetVduInfo | flavor_recommender.py:218-228 | All five details are None iff there is no VDU; otherwise the descriptor's name, id and vendor, the first VDU's name, and the descriptor's version or "N/A" when it has none |
| FlavorRecommender.Reached | flavor_recommender.py:250-273 | At most the three dimensions are worked through before a missing flavor field raises |
| FlavorRecommender.ProposedLines | flavor_recommender.py:251-265 | There are always three proposal lines, vCPU, MEMORY and DISK |
| FlavorRecommender.Justified | flavor_recommender.py:254-266 | A dimension whose own change is zero never justifies an action; a justified vCPU change leaves at least one vCPU |
| FlavorRecommender.FlavorDiff | flavor_recommender.py:250-273 | One message line per dimension reached before a missing field; no change at all never acts |
| FlavorRecommender.FlavorDiffActsIffJustified | flavor_recommender.py:250-273 | The comparison acts iff some reached dimension justifies it, and its lines are the proposed lines of the reached dimensions, in order |
| FlavorRecommender.MissingDiskKeepsTwoLines | flavor_recommender.py:250-273 | A flavor without a disk gives the vCPU and MEMORY lines alone, and acts iff one of those two dimensions justifies it |
| FlavorRecommender.MissingMemoryKeepsVCpuLine | flavor_recommender.py:250-273 | A flavor without memory gives the vCPU line alone, and acts iff the vCPU change is non-zero and leaves a positive count: the message is cut short, not emptied |
| FlavorRecommender.CompareFlavor | flavor_recommender.py:244-273 | The line-by-line accumulation with early exits on a missing field computes exactly the comparison's message and action |
| FlavorRecommender.CompleteFlavorDiff | flavor_recommender.py:251-267 | For a complete flavor the message is the vCPU, MEMORY (proposed GB × 1024) and DISK lines in that order, present even for a zero change; the action is true iff some dimension has a non-zero change and a proposed value above its floor (0 vCPUs, 0.5 GB, 10 GB) |
| FlavorRecommender.UnknownFlavorDiff | flavor_recommender.py:250-273 | The all-None flavor gives no action and an empty message |
| FlavorRecommender.MemoryLineRoundTrip | flavor_recommender.py:257-259 | The MEMORY line of a descriptor's flavor is its `memory-mb` plus 1024 per GB of change |
| FlavorRecommender.CpuScaleUpExample | flavor_recommender.py:251-255 | vCPU 2 with +1 proposes `vCPU: 3` and acts |
| FlavorRecommender.CpuFloorExample | flavor_recommender.py:251-255 | vCPU 1 with -1 proposes `vCPU: 0` and does not act on it |
| FlavorRecommender.NormalizedDiskUtil | flavor_recommender.py:122-126 | Unchanged unless both the disk figure and the flavor's disk are present and non-zero; then a value at most 100 |
| FlavorRecommender.NormalizedDiskUtilIsPercentOfDisk | flavor_recommender.py:122-126 | Below the cap the rewritten figure is usage × 100 / (disk × 10^9); at the cap the usage is at least the disk in bytes; a positive usage of a positive disk stays positive |
| FlavorRecommender.Displayed | flavor_recommender.py:140-143 | A mean is shown iff it is present and non-zero, and then as it is |
| FlavorRecommender.Decision | flavor_recommender.py:114-116 | A non-OpenStack record is never acted on, and a descriptor without a VDU gives no action and an empty message |
| FlavorRecommender.Advice | flavor_recommender.py:118-151 | The subject names the VDU iff the descriptor has one; the description carries the descriptor details of `get_vdu_info`, the record's VNFD uuid, VIM name and VIM type, the current flavor, the proposal and the 30-minute window; each of the CPU, memory and disk figures is shown as "-" exactly when it is missing or zero, and as it is otherwise |
| FlavorRecommender.Reshaped | flavor_recommender.py:118-126 | A record changes at most in its disk figure, and not at all when it is not acted on |
| FlavorRecommender.RecordIssues | flavor_recommender.py:118-151 | One issue for an acted-on record and none otherwise, in the flavor project, category 2 |
| FlavorRecommender.DescriptorRequestsInOrder | flavor_recommender.py:112-115 | A pass asks the NBI for one descriptor per record, in record order |
| FlavorRecommender.NormalizeDisk | flavor_recommender.py:122-126 | The in-place rewrite leaves every other field of the record alone and sets the disk figure to its normalised percentage |
| FlavorRecommender.DecideRecord | flavor_recommender.py:112-126 | With the descriptor in hand: the returned action and lines are the comparison of the policy delta against the first VDU's flavor, and the record is rewritten exactly when that action is taken |
| FlavorRecommender.RecommendForRecord | flavor_recommender.py:112-157 | One loop iteration: one descriptor request, the reshaped record, and one filing iff the comparison acts |
| FlavorRecommender.RecommendFlavor | flavor_recommender.py:85-157 | The in-place pass leaves every record reshaped, files the issues of the acted-on records in record order, and requests one descriptor per record |
| FlavorRecommender.RecordsRewrittenPointwise | flavor_recommender.py:112-126 | After a pass, record i is record i reshaped against its own descriptor, and only its disk figure can differ |
| FlavorRecommender.FlavorIssuesAppend | flavor_recommender.py:112-151 | The filings for two runs of records are those of each run, concatenated: records are handled independently |
| FlavorRecommender.OneIssuePerActionableRecord | flavor_recommender.py:112-151 | The number of issues equals the number of acted-on records; all are in the flavor project under category 2 |
| FlavorRecommender.NoDeduplication | flavor_recommender.py:112-151 | The same records twice file every recommendation twice |
| FlavorRecommender.TwoCycles | flavor_recommender.py:276-281 | Two scheduled passes over the same snapshot file every recommendation twice and request every descriptor twice, in record order each time |
| OsmKafkaSubscriber.FirstMatch | osm_kafka_subscriber.py:84-92 | The position of the first VNF record whose member index matches, with none before it matching; None iff no record matches |
| OsmKafkaSubscriber.FindScaledVnfr | osm_kafka_subscriber.py:84-89 | The search loop with early exit finds exactly that first match |
| OsmKafkaSubscriber.FirstMatchFindsPosition | osm_kafka_subscriber.py:85-89 | With distinct member indexes, the search finds the record of any index present |
| OsmKafkaSubscriber.ScalingAdvisory | osm_kafka_subscriber.py:125-152 | No advisory iff there is no scaling group (or no version); otherwise the current ceiling is the first group's `max-instance-count`, the proposal is one more, the advisory carries the descriptor's name, vendor and version, the VNF record's ref and member index, and the VIM's name and type, and it is filed in the scaling project under category 2 |
| OsmKafkaSubscriber.RecommendVnfdScalingGroup | osm_kafka_subscriber.py:108-159 | Files exactly that advisory, or nothing |
| OsmKafkaSubscriber.CeilingFiveProposesSix | osm_kafka_subscriber.py:147-148 | A ceiling of 5 gives a proposal of 6 |
| OsmKafkaSubscriber.CategoryIgnoresVimType | osm_kafka_subscriber.py:121-152 | A Kubernetes VIM is still filed under category 2, not under the table's 3 |
| OsmKafkaSubscriber.MessageOutcome | osm_kafka_subscriber.py:40-105 | At most one filing per message; a message that is not a failed scaling event with an operation id makes no request; otherwise the first requests are the token and the operation |
| OsmKafkaSubscriber.HandleMessage | osm_kafka_subscriber.py:41-105 | The filter chain with early exits makes exactly the message's requests, in order, and files exactly its advisories |
| OsmKafkaSubscriber.OtherKeyDropped | osm_kafka_subscriber.py:44-45 | A key other than `scaled` is dropped with no request |
| OsmKafkaSubscriber.NotFailedMakesNoRequest | osm_kafka_subscriber.py:47-63 | A state other than FAILED makes neither the token nor the operation request |
| OsmKafkaSubscriber.MissingOperationDropped | osm_kafka_subscriber.py:51-54 | A message without an operation id is dropped |
| OsmKafkaSubscriber.NotScaleOutOfMemberStopsAfterFetch | osm_kafka_subscriber.py:60-76 | An operation that is not SCALE_OUT, or has a missing or zero member index, stops right after the token and operation requests |
| OsmKafkaSubscriber.ScaleOutOfMemberTwoResolvesInstance | osm_kafka_subscriber.py:73-80 | A failed SCALE_OUT of member 2 goes on to request the VNF records of the NS |
| OsmKafkaSubscriber.NumeralZeroIsNotSkipped | osm_kafka_subscriber.py:73-76 | The string "0" passes the zero check; an absent index and the number 0 do not |
| OsmKafkaSubscriber.IsZeroIndex | osm_kafka_subscriber.py:73-76 | The index is skipped iff it is not a numeral string and its integer value is 0 |
| OsmKafkaSubscriber.NoMatchingRecordNoAdvisory | osm_kafka_subscriber.py:84-92 | No matching VNF record, no filing |
| OsmKafkaSubscriber.FiledIffEveryFilterPasses | osm_kafka_subscriber.py:40-152 | A message is filed iff every filter passes, a VNF record matches and its descriptor has a scaling group and a version; the filing proposes the current ceiling + 1 in the scaling project under category 2 |
| OsmKafkaSubscriber.ConsumeEvents | osm_kafka_subscriber.py:40-105 | The consume loop makes the requests and filings of the messages, message after message |
| OsmKafkaSubscriber.AtMostOneAdvisoryPerMessage | osm_kafka_subscriber.py:40-105 | Never more filings than messages |
| OsmKafkaSubscriber.AdvisoriesAreScalingIssues | osm_kafka_subscriber.py:130-152 | Every filing is in the scaling project, under category 2, proposing one more instance than the current ceiling |
| OsmKafkaSubscriber.RedeliveryFilesAgain | osm_kafka_subscriber.py:40-105 | A message delivered twice is filed twice: there is no deduplication |

## Left out

- **External services.**
  - InfluxDB, the NBI's HTTP transport, the Redmine session and the Kafka consumer are
    oracles or sinks.
  - YAML and UTF-8 decoding, the logging, and the SMTP notification (`email_notification`)
    are not modelled.
  - The NBI's bearer-token arguments are not modelled. At osm_kafka_subscriber.py:60-61
    the username is passed as the password as well, and the model's `Nbi` answers
    whatever the login; whether that login succeeds is not modelled.
- **Configuration.** The metric window `SchedulerMinutes` (30) and the flavor project
  `ProjectName` ("resource-recommendations") are fixed at their defaults. In the source,
  environment variables can override both (settings.py:10, 19).
- **Outside the core.**
  - `get_resources_consumption` (flavor_recommender.py:30-82) is not modelled: the records
    are the model's input.
  - The scheduler loop (flavor_recommender.py:276-281) is not modelled; `TwoCycles` shows
    only two cycles over a fixed snapshot.
  - `main`'s VIM discovery (flavor_recommender.py:18-27) and the CONTAINER thresholds
    (settings.py:69-72) are not modelled.
- **Text rendering.**
  - Subjects and descriptions are abstract advice records.
  - `round(…, 2)`, the float-to-string formatting and the `OSM_COMPONENTS['UI']` field are
    not modelled.
- **Exceptions other than the modelled ones.**
  - A missing field of a record, a VDU, a VIM account or a VNF record is not modelled: the
    datatypes always carry their fields.
  - A missing `name`, `id` or `vendor` of a descriptor is not modelled: `Vnfd` always
    carries them. In `get_vdu_info` (flavor_recommender.py:227-228) such a `KeyError` ends
    the whole pass of `recommend_flavor`. In `recommend_vnfd_scaling_group`
    (osm_kafka_subscriber.py:132, 144-145) a missing `name` or `vendor` files nothing, like
    a missing `version`.
  - A missing or non-numeric `max-instance-count` of the first scaling group is not
    modelled: `ScalingGroupDescriptor` always carries an integer. In the source
    (osm_kafka_subscriber.py:147-148) the lookup or the `+ 1` raises inside the `try`, and
    nothing is filed.
  - `ScalingAdvisory` and `FiledIffEveryFilterPasses` are therefore exact only for
    descriptors that have a `name`, a `vendor` and a numeric `max-instance-count` in their
    first scaling group.
  - A `null` descriptor `version` is not modelled: `Vnfd.version == None` stands for an
    absent key only. With a `null` value the source reports `None` rather than "N/A"
    (flavor_recommender.py:228) and files a scaling advisory, because `vnfd['version']`
    does not raise (osm_kafka_subscriber.py:145).
  - A failing NBI request is not modelled: the NBI always answers. In the source, an HTTP
    or JSON error in `main` (osm_kafka_subscriber.py:60-101) or in `get_vdu_info`
    (flavor_recommender.py:213-215) raises out of the loop and ends it. The model's loops
    always go on to the next item.
  - A non-numeric `member-vnf-index` or `member-vnf-index-ref`, on which `int()` raises and
    ends `main`, is not modelled: both are taken as integers.
  - A YAML payload that is not a mapping is not modelled.
  - The two exceptions that are modelled are the `KeyError` on a missing `version`, which
    files nothing, and a missing flavor field in `compare_flavor`.
- **Floating point.** Means, thresholds and memory in GB are exact reals, not IEEE doubles.
- `FlavorRecommender.RecommendFlavor`: the records are modelled as a sequence of values
  held in one object's field.
  - The loop rewrites element i of that field in place.
  - Aliasing of the record dictionaries with other holders is not captured.
- `OsmKafkaSubscriber.ConsumeEvents`: models a finite prefix of the endless Kafka
  iterator.
