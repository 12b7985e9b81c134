/** The event-driven pipeline (osm_kafka_subscriber.py): every message of the OSM `NS`
    topic goes through a short-circuit filter chain; a failed scale-out of a VNF leads to
    one advisory that raises the first scaling group's instance ceiling by one. */
module OsmKafkaSubscriber {
  import opened Wrappers
  import opened Settings
  import opened Osm
  import opened Recommendations
  import opened Sequences

  /** The fields of the decoded message value that the filter reads. */
  datatype Payload = Payload(operationState: Option<string>, nsrId: Option<string>, nslcmopId: Option<string>)

  /** One message of the topic: its decoded key and its decoded value. */
  datatype Message = Message(key: string, payload: Payload)

  // ---------------------------------------------------------------------------------------
  // The VNF record search
  // ---------------------------------------------------------------------------------------

  /** The position of the first VNF record in `vnfrs` whose member index is `index`. */
  function FirstMatch(vnfrs: seq<Vnfr>, index: int): (k: Option<nat>)
    ensures k.Some? ==> k.value < |vnfrs| && vnfrs[k.value].memberVnfIndexRef == index
    ensures k.Some? ==> forall j :: 0 <= j < k.value ==> vnfrs[j].memberVnfIndexRef != index
    ensures k.None? <==> forall j :: 0 <= j < |vnfrs| ==> vnfrs[j].memberVnfIndexRef != index
    decreases |vnfrs|
  {
    if vnfrs == [] then None
    else if vnfrs[0].memberVnfIndexRef == index then Some(0)
    else
      match FirstMatch(vnfrs[1..], index)
      case None => None
      case Some(k) => Some(k + 1)
  }

  /** The `for vnfr in vnfs_list: ... break` search of main: stops at the first record whose
      `int(member-vnf-index-ref)` equals `int(vnf_index)`. */
  method FindScaledVnfr(vnfrs: seq<Vnfr>, index: int) returns (k: Option<nat>)
    ensures k == FirstMatch(vnfrs, index)
    ensures k.Some? ==> k.value < |vnfrs| && vnfrs[k.value].memberVnfIndexRef == index
  {
    k := None;
    for i := 0 to |vnfrs|
      invariant forall j :: 0 <= j < i ==> vnfrs[j].memberVnfIndexRef != index
    {
      if vnfrs[i].memberVnfIndexRef == index {
        k := Some(i);
        return;
      }
    }
  }

  /** Among records with distinct member indexes the search finds the record carrying the
      index, wherever it is. */
  lemma {:induction false} FirstMatchFindsPosition(vnfrs: seq<Vnfr>, p: nat)
    requires p < |vnfrs|
    requires forall i, j :: 0 <= i < j < |vnfrs| ==> vnfrs[i].memberVnfIndexRef != vnfrs[j].memberVnfIndexRef
    ensures FirstMatch(vnfrs, vnfrs[p].memberVnfIndexRef) == Some(p)
  {
    var k := FirstMatch(vnfrs, vnfrs[p].memberVnfIndexRef);
    if k.None? {
      assert false;
    } else if k.value < p {
      assert false;
    }
  }

  // ---------------------------------------------------------------------------------------
  // recommend_vnfd_scaling_group
  // ---------------------------------------------------------------------------------------

  /** What the scaling advisory's subject and description carry. */
  datatype ScalingAdvice = ScalingAdvice(
    vnfdName: string, vnfdRef: string, vendor: string, version: string,
    memberVnfIndexRef: int, vimName: string, vimType: string,
    currentMax: int, proposedMax: int)

  /** The advisory filed for a failed scale-out of `vnfr`, if any. None when the descriptor
      has no scaling group, and also when it has no `version`: that KeyError is raised while
      the description is formatted and swallowed (osm_kafka_subscriber.py:158-159). */
  function ScalingAdvisory(vim: VimAccount, vnfd: Vnfd, vnfr: Vnfr): (issue: Option<Issue<ScalingAdvice>>)
    ensures issue.None? <==> vnfd.scalingGroups == [] || vnfd.version.None?
    ensures issue.Some? ==>
              && issue.value.project == ScalingProjectName
              && issue.value.categoryId == FiledCategory
              && issue.value.advice.currentMax == vnfd.scalingGroups[0].maxInstanceCount
              && issue.value.advice.proposedMax == issue.value.advice.currentMax + 1
              && issue.value.advice.vnfdName == vnfd.name
              && issue.value.advice.memberVnfIndexRef == vnfr.memberVnfIndexRef
    ensures issue.Some? ==>
              && issue.value.advice.vendor == vnfd.vendor
              && issue.value.advice.version == vnfd.version.value
              && issue.value.advice.vnfdRef == vnfr.vnfdRef
              && issue.value.advice.vimName == vim.name
              && issue.value.advice.vimType == vim.vimType
  {
    if vnfd.scalingGroups == [] || vnfd.version.None? then None
    else
      var group := vnfd.scalingGroups[0];
      Some(Issue(ScalingProjectName,
                 ScalingAdvice(vnfd.name, vnfr.vnfdRef, vnfd.vendor, vnfd.version.value,
                               vnfr.memberVnfIndexRef, vim.name, vim.vimType,
                               group.maxInstanceCount, group.maxInstanceCount + 1),
                 2))
  }

  /** The advisory as a (zero- or one-element) list of filings. */
  function AsIssues(advisory: Option<Issue<ScalingAdvice>>): (issues: seq<Issue<ScalingAdvice>>)
    ensures |issues| <= 1
    ensures advisory.None? ==> issues == []
    ensures advisory.Some? ==> issues == [advisory.value]
  {
    match advisory
    case None => []
    case Some(issue) => [issue]
  }

  /** recommend_vnfd_scaling_group: early return on an empty scaling-group list, otherwise
      one filing in the scaling project with category 2. */
  method RecommendVnfdScalingGroup(vim: VimAccount, vnfd: Vnfd, vnfr: Vnfr, redmine: Redmine<ScalingAdvice>)
    modifies redmine
    ensures redmine.issued == old(redmine.issued) + AsIssues(ScalingAdvisory(vim, vnfd, vnfr))
  {
    // The category looked up from the VIM type is computed and never used.
    var categoryId := IssueCategory(vim.vimType);
    var scalingGroupDescriptors := vnfd.scalingGroups;
    if |scalingGroupDescriptors| == 0 {
      return;
    }
    var scalingGroupDescriptor := scalingGroupDescriptors[0];
    if vnfd.version.None? {
      return;
    }
    var advice := ScalingAdvice(vnfd.name, vnfr.vnfdRef, vnfd.vendor, vnfd.version.value,
                                vnfr.memberVnfIndexRef, vim.name, vim.vimType,
                                scalingGroupDescriptor.maxInstanceCount,
                                scalingGroupDescriptor.maxInstanceCount + 1);
    redmine.AddRecommendation(ScalingProjectName, advice, 2);
  }

  /** A descriptor whose first scaling group allows 5 instances is advised to allow 6. */
  lemma CeilingFiveProposesSix(vim: VimAccount, vnfd: Vnfd, vnfr: Vnfr)
    requires |vnfd.scalingGroups| > 0 && vnfd.scalingGroups[0].maxInstanceCount == 5
    requires vnfd.version.Some?
    ensures ScalingAdvisory(vim, vnfd, vnfr).Some?
    ensures ScalingAdvisory(vim, vnfd, vnfr).value.advice.proposedMax == 6
  {
  }

  /** A VIM of another type is still filed under category 2, not under the category the
      VIM-type table gives it. */
  lemma CategoryIgnoresVimType(vnfd: Vnfd, vnfr: Vnfr)
    requires vnfd.scalingGroups != [] && vnfd.version.Some?
    ensures var issue := ScalingAdvisory(VimAccount("k8s", "kubernetes"), vnfd, vnfr).value;
            Some(issue.categoryId) != IssueCategory("kubernetes")
  {
  }

  // ---------------------------------------------------------------------------------------
  // The filter chain of main
  // ---------------------------------------------------------------------------------------

  /** The member index is skipped by `vnf_index == 0`: it is absent (defaulted to 0) or the
      number 0; a string never equals 0 in Python. */
  predicate IsZeroIndex(index: VnfIndex): (zero: bool)
    ensures zero <==> !index.Numeral? && index.AsInt() == 0
  {
    index == Absent || index == Number(0)
  }

  /** The requests and filings one message causes. */
  datatype Outcome = Outcome(calls: seq<NbiCall>, issues: seq<Issue<ScalingAdvice>>)

  const Dropped: Outcome := Outcome([], [])

  /** The message passes the filters that need no request: key, state and operation id. */
  predicate FailedScaleEvent(m: Message) {
    m.key == "scaled" && m.payload.operationState == Some("FAILED") && m.payload.nslcmopId.Some?
  }

  /** The fetched operation passes the type and index filters. */
  predicate ScaleOutOfMember(op: NsLcmOperation) {
    op.scaleVnfType == Some("SCALE_OUT") && !IsZeroIndex(op.memberVnfIndex)
  }

  /** One iteration of main's loop, as the requests it makes and the filings it causes. */
  function MessageOutcome(m: Message, catalog: Catalog): (o: Outcome)
    ensures |o.issues| <= 1
    ensures !FailedScaleEvent(m) ==> o == Dropped
    ensures FailedScaleEvent(m) ==>
              |o.calls| >= 2 && o.calls[..2] == [TokenRequest, OperationRequest(m.payload.nslcmopId.value)]
  {
    if !FailedScaleEvent(m) then Dropped
    else
      var operationId := m.payload.nslcmopId.value;
      var op := catalog.operations(operationId);
      if !ScaleOutOfMember(op) then Outcome([TokenRequest, OperationRequest(operationId)], [])
      else
        var nsId := m.payload.nsrId;
        var vnfrs := catalog.vnfsOfNs(nsId);
        match FirstMatch(vnfrs, op.memberVnfIndex.AsInt())
        case None => Outcome([TokenRequest, OperationRequest(operationId), VnfListRequest(nsId)], [])
        case Some(k) =>
          var vnfr := catalog.vnfrs(vnfrs[k].id);
          var vim := catalog.vims(vnfr.vimAccountId);
          var vnfd := catalog.vnfds(vnfr.vnfdId);
          Outcome([TokenRequest, OperationRequest(operationId), VnfListRequest(nsId),
                   VnfRequest(vnfrs[k].id), VimRequest(vnfr.vimAccountId), VnfdRequest(vnfr.vnfdId)],
                  AsIssues(ScalingAdvisory(vim, vnfd, vnfr)))
  }

  /** One iteration of main's loop: the filters in order with an early `continue` each, the
      token and operation fetch, the VNF record search and the advisory. */
  method HandleMessage(m: Message, nbi: Nbi, redmine: Redmine<ScalingAdvice>)
    modifies nbi, redmine
    ensures nbi.calls == old(nbi.calls) + MessageOutcome(m, nbi.catalog).calls
    ensures redmine.issued == old(redmine.issued) + MessageOutcome(m, nbi.catalog).issues
  {
    var action := m.key;
    var payload := m.payload;
    if action != "scaled" {
      return;
    }
    var eventState := payload.operationState;
    if eventState != Some("FAILED") {
      return;
    }
    var nsUuid := payload.nsrId;
    var operationUuid := payload.nslcmopId;
    if operationUuid.None? {
      return;
    }

    ghost var calls0 := nbi.calls;
    nbi.BearerToken();
    var response := nbi.GetOperation(operationUuid.value);
    assert nbi.calls == calls0 + [TokenRequest, OperationRequest(operationUuid.value)];
    var event := response.scaleVnfType;
    if event != Some("SCALE_OUT") {
      return;
    }
    var vnfIndex := response.memberVnfIndex;
    if IsZeroIndex(vnfIndex) {
      return;
    }

    var vnfsList := nbi.GetVnfList(nsUuid);
    assert nbi.calls == calls0 + [TokenRequest, OperationRequest(operationUuid.value), VnfListRequest(nsUuid)];
    var k := FindScaledVnfr(vnfsList, vnfIndex.AsInt());
    if k.None? {
      return;
    }
    var scaledVnfr := nbi.GetVnf(vnfsList[k.value].id);
    var vimInfo := nbi.GetVimAccount(scaledVnfr.vimAccountId);
    var vnfdInfo := nbi.GetVnfd(scaledVnfr.vnfdId);
    assert nbi.calls == calls0 + [TokenRequest, OperationRequest(operationUuid.value), VnfListRequest(nsUuid),
                                  VnfRequest(vnfsList[k.value].id), VimRequest(scaledVnfr.vimAccountId),
                                  VnfdRequest(scaledVnfr.vnfdId)];
    RecommendVnfdScalingGroup(vimInfo, vnfdInfo, scaledVnfr, redmine);
  }

  /** A message with another key is dropped. */
  lemma OtherKeyDropped(m: Message, catalog: Catalog)
    requires m.key != "scaled"
    ensures MessageOutcome(m, catalog) == Dropped
  {
  }

  /** A message whose operation did not fail is dropped before the token or the operation is
      requested; e.g. a COMPLETED scale-out. */
  lemma NotFailedMakesNoRequest(m: Message, catalog: Catalog)
    requires m.payload.operationState != Some("FAILED")
    ensures MessageOutcome(m, catalog).calls == []
    ensures MessageOutcome(m, catalog).issues == []
  {
  }

  /** A message without an operation id is dropped. */
  lemma MissingOperationDropped(m: Message, catalog: Catalog)
    requires m.payload.nslcmopId.None?
    ensures MessageOutcome(m, catalog) == Dropped
  {
  }

  /** An operation that is not a scale-out, or whose member index is zero or absent, stops the
      message right after the operation fetch. */
  lemma NotScaleOutOfMemberStopsAfterFetch(m: Message, catalog: Catalog)
    requires FailedScaleEvent(m)
    requires !ScaleOutOfMember(catalog.operations(m.payload.nslcmopId.value))
    ensures MessageOutcome(m, catalog) ==
              Outcome([TokenRequest, OperationRequest(m.payload.nslcmopId.value)], [])
  {
  }

  /** A failed scale-out of member 2 goes on to request the VNF records of the NS. */
  lemma ScaleOutOfMemberTwoResolvesInstance(m: Message, catalog: Catalog)
    requires FailedScaleEvent(m)
    requires catalog.operations(m.payload.nslcmopId.value) == NsLcmOperation(Some("SCALE_OUT"), Number(2))
    ensures |MessageOutcome(m, catalog).calls| >= 3
    ensures MessageOutcome(m, catalog).calls[2] == VnfListRequest(m.payload.nsrId)
  {
  }

  /** The member index "0" as a string is not skipped, unlike the number 0. */
  lemma NumeralZeroIsNotSkipped()
    ensures !IsZeroIndex(Numeral(0)) && IsZeroIndex(Number(0)) && IsZeroIndex(Absent)
  {
  }

  /** When no VNF record of the NS carries the member index, nothing is filed. */
  lemma NoMatchingRecordNoAdvisory(m: Message, catalog: Catalog)
    requires FailedScaleEvent(m)
    requires var op := catalog.operations(m.payload.nslcmopId.value);
             FirstMatch(catalog.vnfsOfNs(m.payload.nsrId), op.memberVnfIndex.AsInt()).None?
    ensures MessageOutcome(m, catalog).issues == []
  {
  }

  /** A message is filed iff it passes every filter, a VNF record matches, and the matched
      descriptor has a scaling group and a version; the filing proposes the first group's
      ceiling plus one. */
  lemma {:induction false} FiledIffEveryFilterPasses(m: Message, catalog: Catalog)
    ensures MessageOutcome(m, catalog).issues != [] <==>
              && FailedScaleEvent(m)
              && var op := catalog.operations(m.payload.nslcmopId.value);
                 var vnfrs := catalog.vnfsOfNs(m.payload.nsrId);
                 var k := FirstMatch(vnfrs, op.memberVnfIndex.AsInt());
                 && ScaleOutOfMember(op)
                 && k.Some?
                 && var vnfd := catalog.vnfds(catalog.vnfrs(vnfrs[k.value].id).vnfdId);
                    vnfd.scalingGroups != [] && vnfd.version.Some?
    ensures MessageOutcome(m, catalog).issues != [] ==>
              && var issue := MessageOutcome(m, catalog).issues[0];
                 && issue.project == ScalingProjectName
                 && issue.categoryId == FiledCategory
                 && issue.advice.proposedMax == issue.advice.currentMax + 1
  {
    if FailedScaleEvent(m) {
      var op := catalog.operations(m.payload.nslcmopId.value);
      var vnfrs := catalog.vnfsOfNs(m.payload.nsrId);
      var k := FirstMatch(vnfrs, op.memberVnfIndex.AsInt());
      if ScaleOutOfMember(op) && k.Some? {
        var vnfr := catalog.vnfrs(vnfrs[k.value].id);
        var advisory := ScalingAdvisory(catalog.vims(vnfr.vimAccountId), catalog.vnfds(vnfr.vnfdId), vnfr);
        assert MessageOutcome(m, catalog).issues == AsIssues(advisory);
      }
    }
  }

  // ---------------------------------------------------------------------------------------
  // The consume loop of main
  // ---------------------------------------------------------------------------------------

  /** The requests made while consuming `messages`, in order. */
  function EventCalls(messages: seq<Message>, catalog: Catalog): (calls: seq<NbiCall>)
    decreases |messages|
  {
    if messages == [] then []
    else EventCalls(messages[..|messages| - 1], catalog) + MessageOutcome(messages[|messages| - 1], catalog).calls
  }

  /** The filings made while consuming `messages`, in order. */
  function EventIssues(messages: seq<Message>, catalog: Catalog): (issues: seq<Issue<ScalingAdvice>>)
    decreases |messages|
  {
    if messages == [] then []
    else EventIssues(messages[..|messages| - 1], catalog) + MessageOutcome(messages[|messages| - 1], catalog).issues
  }

  /** main's `for message in kafka_consumer` loop over a finite run of messages. */
  method ConsumeEvents(messages: seq<Message>, nbi: Nbi, redmine: Redmine<ScalingAdvice>)
    modifies nbi, redmine
    ensures nbi.calls == old(nbi.calls) + EventCalls(messages, nbi.catalog)
    ensures redmine.issued == old(redmine.issued) + EventIssues(messages, nbi.catalog)
  {
    ghost var calls0 := nbi.calls;
    ghost var issued0 := redmine.issued;
    for i := 0 to |messages|
      invariant nbi.calls == calls0 + EventCalls(messages[..i], nbi.catalog)
      invariant redmine.issued == issued0 + EventIssues(messages[..i], nbi.catalog)
    {
      EventStep(messages, i, nbi.catalog);
      HandleMessage(messages[i], nbi, redmine);
      AppendAssociative(calls0, EventCalls(messages[..i], nbi.catalog), MessageOutcome(messages[i], nbi.catalog).calls);
      AppendAssociative(issued0, EventIssues(messages[..i], nbi.catalog), MessageOutcome(messages[i], nbi.catalog).issues);
    }
    assert messages[..|messages|] == messages;
  }

  /** One more message extends the requests and filings by that message's own. */
  lemma EventStep(messages: seq<Message>, i: nat, catalog: Catalog)
    requires i < |messages|
    ensures EventCalls(messages[..i + 1], catalog) == EventCalls(messages[..i], catalog) + MessageOutcome(messages[i], catalog).calls
    ensures EventIssues(messages[..i + 1], catalog) == EventIssues(messages[..i], catalog) + MessageOutcome(messages[i], catalog).issues
  {
    assert messages[..i + 1][..i] == messages[..i];
  }

  /** At most one advisory per message. */
  lemma {:induction false} AtMostOneAdvisoryPerMessage(messages: seq<Message>, catalog: Catalog)
    ensures |EventIssues(messages, catalog)| <= |messages|
    decreases |messages|
  {
    if messages != [] {
      AtMostOneAdvisoryPerMessage(messages[..|messages| - 1], catalog);
    }
  }

  /** Every advisory is filed in the scaling project under category 2 and proposes one more
      instance than the current ceiling. */
  lemma {:induction false} AdvisoriesAreScalingIssues(messages: seq<Message>, catalog: Catalog)
    ensures forall i :: 0 <= i < |EventIssues(messages, catalog)| ==>
              && EventIssues(messages, catalog)[i].project == ScalingProjectName
              && EventIssues(messages, catalog)[i].categoryId == FiledCategory
              && EventIssues(messages, catalog)[i].advice.proposedMax == EventIssues(messages, catalog)[i].advice.currentMax + 1
    decreases |messages|
  {
    if messages != [] {
      AdvisoriesAreScalingIssues(messages[..|messages| - 1], catalog);
      FiledIffEveryFilterPasses(messages[|messages| - 1], catalog);
    }
  }

  /** A redelivered message is handled again: there is no deduplication. */
  lemma {:induction false} RedeliveryFilesAgain(m: Message, catalog: Catalog)
    ensures EventIssues([m, m], catalog) == MessageOutcome(m, catalog).issues + MessageOutcome(m, catalog).issues
  {
    assert [m, m][..1] == [m];
    assert [m][..0] == [];
    assert EventIssues([m], catalog) == MessageOutcome(m, catalog).issues;
  }
}
