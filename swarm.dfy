/** The Docker Swarm orchestration adapter. Every Docker API response
    enters the model already decoded; a request, transport, body-read or
    JSON failure is the `Failure` alternative of the response. */
module Swarm {
  import opened Wrappers

  /** The body of `GET /swarm`. */
  datatype SwarmInfo = SwarmInfo(id: string)

  /** The part of `GET /info` the adapter reads: `Swarm.NodeID`. */
  datatype DaemonInfo = DaemonInfo(swarmNodeID: string)

  /** The `ManagerStatus` of a node; absent on worker nodes. */
  datatype ManagerStatus = ManagerStatus(leader: bool)

  /** One element of the body of `GET /nodes`. */
  datatype NodeInfo = NodeInfo(id: string, managerStatus: Option<ManagerStatus>)

  /** The part of `GET /nodes/<id>` the adapter reads: `Spec.Labels`. */
  datatype NodeSpec = NodeSpec(labels: map<string, string>)

  /** A decoded event of the swarm-scoped event stream. */
  datatype DockerEvent = DockerEvent(kind: string, action: string, actorID: string, attributes: map<string, string>)

  /** One line of the event stream: empty, not decodable as an event, or an event. */
  datatype EventLine = Blank | Malformed | Decoded(event: DockerEvent)

  /** `IsSwarmActive`: swarm mode is on exactly when the daemon reports a
      non-empty swarm ID; any failure reads as inactive. */
  function IsSwarmActive(response: Result<SwarmInfo>): (active: bool)
    ensures active <==> response.Success? && response.value.id != ""
  {
    match response
    case Failure(_) => false
    case Success(info) => info.id != ""
  }

  /** `GetCurrentNodeID`: the swarm node ID of this daemon; an error when
      the request fails or the ID is empty. */
  function GetCurrentNodeID(response: Result<DaemonInfo>): (r: Result<string>)
    ensures r.Success? <==> response.Success? && response.value.swarmNodeID != ""
    ensures r.Success? ==> r.value == response.value.swarmNodeID
  {
    match response
    case Failure(err) => Failure(err)
    case Success(info) =>
      if info.swarmNodeID == "" then Failure("could not determine node ID")
      else Success(info.swarmNodeID)
  }

  /** Whether node `n` is the node `id` and the swarm's leader. */
  predicate IsLeaderEntry(n: NodeInfo, id: string) {
    n.id == id && n.managerStatus.Some? && n.managerStatus.value.leader
  }

  /** `IsSwarmLeader`: this node leads the swarm exactly when the node list
      has an entry with its ID whose manager status says leader. A failure
      to learn the node ID or to fetch and decode the node list reads as
      "not leader". */
  method IsSwarmLeader(info: Result<DaemonInfo>, nodes: Result<seq<NodeInfo>>) returns (leader: bool)
    ensures leader <==>
      && GetCurrentNodeID(info).Success?
      && nodes.Success?
      && exists k :: 0 <= k < |nodes.value| && IsLeaderEntry(nodes.value[k], GetCurrentNodeID(info).value)
  {
    var currentNodeID := GetCurrentNodeID(info);
    if currentNodeID.Failure? {
      return false;
    }
    if nodes.Failure? {
      return false;
    }
    var list := nodes.value;
    var i := 0;
    while i < |list|
      invariant 0 <= i <= |list|
      invariant forall k :: 0 <= k < i ==> !IsLeaderEntry(list[k], currentNodeID.value)
    {
      var node := list[i];
      if node.id == currentNodeID.value && node.managerStatus.Some? && node.managerStatus.value.leader {
        return true;
      }
      i := i + 1;
    }
    return false;
  }

  /** Whether a stream line is a node update event. */
  predicate IsNodeUpdate(line: EventLine) {
    line.Decoded? && line.event.kind == "node" && line.event.action == "update"
  }

  /** `WatchEvents`: scans the event stream line by line and invokes the
      callback once per node update event, skipping blank and undecodable
      lines; it returns when the stream ends, and at once when the request
      fails. The result lists, in order, the indices of the lines at which
      the callback ran. */
  method WatchEvents(stream: Result<seq<EventLine>>) returns (fired: seq<nat>)
    ensures stream.Failure? ==> fired == []
    ensures stream.Success? ==> forall k :: 0 <= k < |fired| ==> fired[k] < |stream.value|
    ensures stream.Success? ==>
      forall i :: 0 <= i < |stream.value| ==> (IsNodeUpdate(stream.value[i]) <==> i in fired)
    ensures forall k, l :: 0 <= k < l < |fired| ==> fired[k] < fired[l]
  {
    fired := [];
    if stream.Failure? {
      return;
    }
    var lines := stream.value;
    var i := 0;
    while i < |lines|
      invariant 0 <= i <= |lines|
      invariant forall k :: 0 <= k < |fired| ==> fired[k] < i
      invariant forall j :: 0 <= j < i ==> (IsNodeUpdate(lines[j]) <==> j in fired)
      invariant forall k, l :: 0 <= k < l < |fired| ==> fired[k] < fired[l]
    {
      var line := lines[i];
      if line.Blank? {
        i := i + 1;
        continue;
      }
      if line.Malformed? {
        i := i + 1;
        continue;
      }
      if line.event.kind == "node" && line.event.action == "update" {
        fired := fired + [i];
      }
      i := i + 1;
    }
  }

  /** `GetNodeLabel`: the value of label `labelName` on the node, whenever
      the label exists (even when it is empty); an error when the node
      cannot be fetched or lacks the label. */
  function GetNodeLabel(nodeID: string, labelName: string, node: Result<NodeSpec>): (r: Result<string>)
    ensures r.Success? <==> node.Success? && labelName in node.value.labels
    ensures r.Success? ==> r.value == node.value.labels[labelName]
  {
    match node
    case Failure(err) => Failure(err)
    case Success(spec) =>
      if labelName in spec.labels then Success(spec.labels[labelName])
      else Failure("label " + labelName + " not found on node " + nodeID)
  }

  /** `GetNodePublicIP`: the `public_ip` label of this node, found by first
      asking the daemon for the node ID and then fetching that node;
      `fetchNode` answers `GET /nodes/<id>`. */
  function GetNodePublicIP(info: Result<DaemonInfo>, fetchNode: string -> Result<NodeSpec>): (r: Result<string>)
    ensures GetCurrentNodeID(info).Failure? ==> r.Failure?
    ensures GetCurrentNodeID(info).Success? ==>
      var id := GetCurrentNodeID(info).value;
      (r.Success? <==> GetNodeLabel(id, "public_ip", fetchNode(id)).Success?)
      && (r.Success? ==> r == GetNodeLabel(id, "public_ip", fetchNode(id)))
  {
    match GetCurrentNodeID(info)
    case Failure(err) => Failure("failed to get node ID: " + err)
    case Success(nodeID) =>
      match GetNodeLabel(nodeID, "public_ip", fetchNode(nodeID))
      case Failure(err) => Failure("failed to get public_ip label: " + err)
      case Success(publicIP) => Success(publicIP)
  }

  /** The public IP is the `public_ip` label of the node the daemon names,
      and every failure on the way is an error. */
  lemma PublicIPIsLabel(info: Result<DaemonInfo>, fetchNode: string -> Result<NodeSpec>)
    ensures GetNodePublicIP(info, fetchNode).Success? <==>
      && info.Success? && info.value.swarmNodeID != ""
      && fetchNode(info.value.swarmNodeID).Success?
      && "public_ip" in fetchNode(info.value.swarmNodeID).value.labels
    ensures GetNodePublicIP(info, fetchNode).Success? ==>
      GetNodePublicIP(info, fetchNode).value == fetchNode(info.value.swarmNodeID).value.labels["public_ip"]
  {
  }
}
