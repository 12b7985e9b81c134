/** The records the OSM northbound interface (NBI) returns, and the NBI itself as an
    oracle that logs every request made to it. */
module Osm {
  import opened Wrappers

  /** The `vm-flavor` of a VDU in a VNF descriptor. */
  datatype VmFlavor = VmFlavor(memoryMb: int, vcpuCount: int, storageGb: int)

  datatype Vdu = Vdu(name: string, vmFlavor: VmFlavor)

  /** One entry of a descriptor's `scaling-group-descriptor` list. */
  datatype ScalingGroupDescriptor = ScalingGroupDescriptor(name: string, maxInstanceCount: int)

  /** A VNF descriptor. `version` may be absent; `vdus` and `scalingGroups` default to empty. */
  datatype Vnfd = Vnfd(
    id: string, name: string, vendor: string, version: Option<string>,
    vdus: seq<Vdu>, scalingGroups: seq<ScalingGroupDescriptor>)

  datatype VimAccount = VimAccount(name: string, vimType: string)

  /** A VNF record; `memberVnfIndexRef` is the value of `int(member-vnf-index-ref)`. */
  datatype Vnfr = Vnfr(
    id: string, memberVnfIndexRef: int, vimAccountId: string, vnfdId: string, vnfdRef: string)

  /** The `member-vnf-index` of a scale operation as it arrives: absent, a number, or a
      numeral string (whose `int(...)` value is `parsed`). Python's `== 0` holds only for the
      absent field (defaulted to 0) and the number 0, never for a string. */
  datatype VnfIndex = Absent | Number(n: int) | Numeral(parsed: int) {

    /** The value `int(vnf_index)` gives. */
    function AsInt(): int {
      match this
      case Absent => 0
      case Number(n) => n
      case Numeral(p) => p
    }
  }

  /** The `scaleVnfData` of an NS lifecycle operation that the subscriber reads. */
  datatype NsLcmOperation = NsLcmOperation(scaleVnfType: Option<string>, memberVnfIndex: VnfIndex)

  /** What the NBI answers, one lookup per endpoint. */
  datatype Catalog = Catalog(
    operations: string -> NsLcmOperation,
    vnfsOfNs: Option<string> -> seq<Vnfr>,
    vnfrs: string -> Vnfr,
    vims: string -> VimAccount,
    vnfds: string -> Vnfd)

  /** The requests made to the NBI, in order. */
  datatype NbiCall =
    | TokenRequest
    | OperationRequest(operationId: string)
    | VnfListRequest(nsId: Option<string>)
    | VnfRequest(vnfrId: string)
    | VimRequest(vimAccountId: string)
    | VnfdRequest(vnfdId: string)

  /** The NBI client: every request is answered from `catalog` and appended to `calls`. */
  class Nbi {
    const catalog: Catalog
    ghost var calls: seq<NbiCall>

    constructor (catalog: Catalog)
      ensures this.catalog == catalog && calls == []
    {
      this.catalog := catalog;
      calls := [];
    }

    /** nbiapi.identity.bearer_token */
    method BearerToken()
      modifies this
      ensures calls == old(calls) + [TokenRequest]
    {
      calls := calls + [TokenRequest];
    }

    /** NsLcmOperation.get */
    method GetOperation(operationId: string) returns (op: NsLcmOperation)
      modifies this
      ensures op == catalog.operations(operationId)
      ensures calls == old(calls) + [OperationRequest(operationId)]
    {
      op := catalog.operations(operationId);
      calls := calls + [OperationRequest(operationId)];
    }

    /** Vnf.get_list_by_ns */
    method GetVnfList(nsId: Option<string>) returns (vnfrs: seq<Vnfr>)
      modifies this
      ensures vnfrs == catalog.vnfsOfNs(nsId)
      ensures calls == old(calls) + [VnfListRequest(nsId)]
    {
      vnfrs := catalog.vnfsOfNs(nsId);
      calls := calls + [VnfListRequest(nsId)];
    }

    /** Vnf.get */
    method GetVnf(vnfrId: string) returns (vnfr: Vnfr)
      modifies this
      ensures vnfr == catalog.vnfrs(vnfrId)
      ensures calls == old(calls) + [VnfRequest(vnfrId)]
    {
      vnfr := catalog.vnfrs(vnfrId);
      calls := calls + [VnfRequest(vnfrId)];
    }

    /** VimAccount.get */
    method GetVimAccount(vimAccountId: string) returns (vim: VimAccount)
      modifies this
      ensures vim == catalog.vims(vimAccountId)
      ensures calls == old(calls) + [VimRequest(vimAccountId)]
    {
      vim := catalog.vims(vimAccountId);
      calls := calls + [VimRequest(vimAccountId)];
    }

    /** Vnfd.get */
    method GetVnfd(vnfdId: string) returns (vnfd: Vnfd)
      modifies this
      ensures vnfd == catalog.vnfds(vnfdId)
      ensures calls == old(calls) + [VnfdRequest(vnfdId)]
    {
      vnfd := catalog.vnfds(vnfdId);
      calls := calls + [VnfdRequest(vnfdId)];
    }
  }
}
