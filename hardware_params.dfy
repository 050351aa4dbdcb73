/** The hardware parameters of a create-cluster request (`hw_params` in
    `create_redshift_cluster`): the cluster type, the node type and, under a
    condition, the number of nodes read from the configuration as an integer. */
module HardwareParams {
  import opened Wrappers

  /** The value that makes the node count part of the request. */
  const MultiNode: string := "multi-node"

  const ClusterTypeKey: string := "ClusterType"
  const NodeTypeKey: string := "NodeType"
  const NumberOfNodesKey: string := "NumberOfNodes"

  /** A request parameter: a configuration string, or a converted integer. */
  datatype HwValue = Text(text: string) | Count(count: int)

  predicate IsDigit(c: char) {
    '0' <= c <= '9'
  }

  predicate AllDigits(s: string) {
    forall i :: 0 <= i < |s| ==> IsDigit(s[i])
  }

  /** The value of a string of decimal digits, most significant first. */
  function DigitsValue(s: string): nat
    requires AllDigits(s)
  {
    if |s| == 0 then 0 else DigitsValue(s[..|s| - 1]) * 10 + (s[|s| - 1] as int - '0' as int)
  }

  /** An optional '+' or '-' followed by at least one decimal digit. */
  predicate IsNumeral(s: string) {
    if |s| > 0 && (s[0] == '-' || s[0] == '+') then |s| > 1 && AllDigits(s[1..])
    else |s| > 0 && AllDigits(s)
  }

  /** Integer conversion of a configuration string: an optional sign followed
      by at least one decimal digit; anything else is a conversion error. */
  function ParseInt(s: string): (r: Option<int>)
    ensures r.Some? <==> IsNumeral(s)
    ensures r.Some? && s[0] == '-' ==> r.value == -(DigitsValue(s[1..]) as int)
    ensures r.Some? && s[0] == '+' ==> r.value == DigitsValue(s[1..])
    ensures r.Some? && IsDigit(s[0]) ==> r.value == DigitsValue(s)
  {
    if |s| > 0 && (s[0] == '-' || s[0] == '+') then
      if |s| > 1 && AllDigits(s[1..]) then
        Some(if s[0] == '-' then 0 - DigitsValue(s[1..]) as int else DigitsValue(s[1..]))
      else None
    else if |s| > 0 && AllDigits(s) then Some(DigitsValue(s))
    else None
  }

  /** The decimal spelling of a natural number, without leading zeros. */
  function ShowNat(n: nat): (s: string)
    ensures |s| > 0 && AllDigits(s)
    decreases n
  {
    var d := ['0' + (n % 10) as char];
    if n < 10 then d else ShowNat(n / 10) + d
  }

  /** The decimal spelling of an integer, with a minus sign when negative. */
  function ShowInt(n: int): string {
    if n < 0 then "-" + ShowNat(-n) else ShowNat(n)
  }

  lemma {:induction false} ShowNatValue(n: nat)
    ensures DigitsValue(ShowNat(n)) == n
    decreases n
  {
    var s := ShowNat(n);
    if n >= 10 {
      ShowNatValue(n / 10);
      assert s[..|s| - 1] == ShowNat(n / 10);
    }
  }

  /** Conversion reads back every integer from its decimal spelling. */
  lemma ParseShowInt(n: int)
    ensures ParseInt(ShowInt(n)) == Some(n)
  {
    if n < 0 {
      ShowNatValue(-n);
      assert ShowInt(n)[1..] == ShowNat(-n);
    } else {
      ShowNatValue(n);
    }
  }

  /** The parameters as the source builds them: `None` when the node count does
      not convert, which the surrounding handler swallows so that no cluster is
      requested. The node count is included when the NODE type is "multi-node". */
  function HwParams(clusterType: string, nodeType: string, numNodes: string): (hw: Option<map<string, HwValue>>)
    ensures hw.None? <==> nodeType == MultiNode && ParseInt(numNodes).None?
    ensures hw.Some? ==>
      && ClusterTypeKey in hw.value && hw.value[ClusterTypeKey] == Text(clusterType)
      && NodeTypeKey in hw.value && hw.value[NodeTypeKey] == Text(nodeType)
      && (NumberOfNodesKey in hw.value <==> nodeType == MultiNode)
      && hw.value.Keys <= {ClusterTypeKey, NodeTypeKey, NumberOfNodesKey}
    ensures hw.Some? && NumberOfNodesKey in hw.value ==> hw.value[NumberOfNodesKey] == Count(ParseInt(numNodes).value)
  {
    if nodeType == MultiNode then
      match ParseInt(numNodes)
      case None => None
      case Some(n) => Some(map[ClusterTypeKey := Text(clusterType), NumberOfNodesKey := Count(n), NodeTypeKey := Text(nodeType)])
    else
      Some(map[ClusterTypeKey := Text(clusterType), NodeTypeKey := Text(nodeType)])
  }

  /** The parameters built key by key, as the source inserts them. */
  method BuildHwParams(clusterType: string, nodeType: string, numNodes: string) returns (hw: Option<map<string, HwValue>>)
    ensures hw == HwParams(clusterType, nodeType, numNodes)
  {
    var params := map[ClusterTypeKey := Text(clusterType)];
    if nodeType == MultiNode {
      var n := ParseInt(numNodes);
      if n.None? {
        return None;
      }
      params := params[NumberOfNodesKey := Count(n.value)];
    }
    params := params[NodeTypeKey := Text(nodeType)];
    return Some(params);
  }

  /** The condition looks at the node type, not the cluster type: a multi-node
      cluster of ordinary nodes is requested without its node count. */
  lemma MultiNodeClusterLacksNodeCount()
    ensures HwParams(MultiNode, "dc2.large", "4") ==
      Some(map[ClusterTypeKey := Text(MultiNode), NodeTypeKey := Text("dc2.large")])
  {
  }

  /** The parameters as the node-count documentation describes them: the node
      count belongs to a multi-node CLUSTER type. */
  function IntendedHwParams(clusterType: string, nodeType: string, numNodes: string): (hw: Option<map<string, HwValue>>)
    ensures hw.None? <==> clusterType == MultiNode && ParseInt(numNodes).None?
    ensures hw.Some? ==>
      && ClusterTypeKey in hw.value && hw.value[ClusterTypeKey] == Text(clusterType)
      && NodeTypeKey in hw.value && hw.value[NodeTypeKey] == Text(nodeType)
      && (NumberOfNodesKey in hw.value <==> clusterType == MultiNode)
      && hw.value.Keys <= {ClusterTypeKey, NodeTypeKey, NumberOfNodesKey}
    ensures hw.Some? && NumberOfNodesKey in hw.value ==> hw.value[NumberOfNodesKey] == Count(ParseInt(numNodes).value)
  {
    if clusterType == MultiNode then
      match ParseInt(numNodes)
      case None => None
      case Some(n) => Some(map[ClusterTypeKey := Text(clusterType), NumberOfNodesKey := Count(n), NodeTypeKey := Text(nodeType)])
    else
      Some(map[ClusterTypeKey := Text(clusterType), NodeTypeKey := Text(nodeType)])
  }

  /** With the intended condition a multi-node cluster always carries the node
      count it was configured with. */
  lemma IntendedMultiNodeCarriesCount(nodeType: string, n: int)
    ensures IntendedHwParams(MultiNode, nodeType, ShowInt(n)).Some?
    ensures IntendedHwParams(MultiNode, nodeType, ShowInt(n)).value[NumberOfNodesKey] == Count(n)
  {
    ParseShowInt(n);
  }
}
