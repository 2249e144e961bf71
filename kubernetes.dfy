/** The Kubernetes orchestration adapter. API objects enter the model
    already fetched and decoded; a failed API call is the `Failure`
    alternative of its response. */
module Kubernetes {
  import opened Wrappers
  import opened Environment

  /** Name of the lease whose holder is the cluster leader. */
  const ControllerManagerLease := "kube-controller-manager"

  /** Address type of a node's external address. */
  const NodeExternalIP := "ExternalIP"

  /** One entry of a node's `Status.Addresses`. */
  datatype NodeAddress = NodeAddress(kind: string, address: string)

  /** The parts of a Node object the adapter reads. */
  datatype Node = Node(labels: map<string, string>, addresses: seq<NodeAddress>)

  /** The parts of a Lease object the adapter reads; a nil holder identity is `None`. */
  datatype Lease = Lease(name: string, holderIdentity: Option<string>)

  /** An object delivered to the informer's update handler. */
  datatype WatchedObject = LeaseObject(lease: Lease) | OtherObject

  /** `GetNodeName`: the `NODE_NAME` environment variable; an error exactly
      when it is empty or unset. */
  function GetNodeName(env: Env): (r: Result<string>)
    ensures r.Failure? <==> Getenv(env, "NODE_NAME") == ""
    ensures r.Success? ==> r.value == Getenv(env, "NODE_NAME")
  {
    var nodeName := Getenv(env, "NODE_NAME");
    if nodeName == "" then Failure("NODE_NAME environment variable not set") else Success(nodeName)
  }

  /** `GetNodePublicIP`: the node's `public_ip` label when present (even if
      the node also has an external address), else the first address of
      type ExternalIP; an error when the node name is unknown, the node
      cannot be fetched, or neither source yields an address. `fetchNode`
      answers the API's node lookup. */
  method GetNodePublicIP(env: Env, fetchNode: string -> Result<Node>) returns (r: Result<string>)
    ensures GetNodeName(env).Failure? ==> r.Failure?
    ensures GetNodeName(env).Success? && fetchNode(GetNodeName(env).value).Failure? ==> r.Failure?
    ensures GetNodeName(env).Success? && fetchNode(GetNodeName(env).value).Success? ==>
      var node := fetchNode(GetNodeName(env).value).value;
      && ("public_ip" in node.labels ==> r == Success(node.labels["public_ip"]))
      && ("public_ip" !in node.labels ==>
            && (r.Failure? <==> forall k :: 0 <= k < |node.addresses| ==> node.addresses[k].kind != NodeExternalIP)
            && (r.Success? ==>
                  exists k :: 0 <= k < |node.addresses| && node.addresses[k].kind == NodeExternalIP
                    && r.value == node.addresses[k].address
                    && (forall j :: 0 <= j < k ==> node.addresses[j].kind != NodeExternalIP)))
  {
    var nodeName := GetNodeName(env);
    if nodeName.Failure? {
      return Failure(nodeName.error);
    }
    var fetched := fetchNode(nodeName.value);
    if fetched.Failure? {
      return Failure("error getting node: " + fetched.error);
    }
    var node := fetched.value;
    if "public_ip" in node.labels {
      return Success(node.labels["public_ip"]);
    }
    var i := 0;
    while i < |node.addresses|
      invariant 0 <= i <= |node.addresses|
      invariant forall j :: 0 <= j < i ==> node.addresses[j].kind != NodeExternalIP
    {
      if node.addresses[i].kind == NodeExternalIP {
        return Success(node.addresses[i].address);
      }
      i := i + 1;
    }
    return Failure("no external IP found for node " + nodeName.value
      + " (neither in addresses nor in public_ip label)");
  }

  /** `IsLeader`: this node leads exactly when the controller manager's
      lease has a holder identity that starts with the node name followed
      by an underscore. A failure to learn the node name or to fetch the
      lease reads as "not leader". */
  function IsLeader(env: Env, lease: Result<Lease>): (leader: bool)
    ensures leader <==>
      && GetNodeName(env).Success?
      && lease.Success?
      && lease.value.holderIdentity.Some?
      && GetNodeName(env).value + "_" <= lease.value.holderIdentity.value
  {
    match GetNodeName(env)
    case Failure(_) => false
    case Success(nodeName) =>
      match lease
      case Failure(_) => false
      case Success(l) =>
        match l.holderIdentity
        case None => false
        case Some(holder) => nodeName + "_" <= holder
  }

  /** A holder identity equal to the bare node name is not leadership. */
  lemma BareNodeNameIsNotLeader(env: Env)
    ensures !IsLeader(env, Success(Lease(ControllerManagerLease, Some(Getenv(env, "NODE_NAME")))))
  {
  }

  /** The index of the first underscore of `s`, or `|s|` when there is none. */
  function FirstUnderscore(s: string): (i: nat)
    ensures i <= |s|
  {
    if s == [] then 0 else if s[0] == '_' then 0 else 1 + FirstUnderscore(s[1..])
  }

  /** A name without underscores that prefixes `holder` before an
      underscore ends exactly at the holder's first underscore. */
  lemma {:induction false} PrefixEndsAtFirstUnderscore(name: string, holder: string)
    requires '_' !in name && name + "_" <= holder
    ensures FirstUnderscore(holder) == |name|
  {
    if name != [] {
      assert holder[0] == name[0];
      assert name[1..] + "_" <= holder[1..] by {
        assert name + "_" == [name[0]] + (name[1..] + "_");
      }
      PrefixEndsAtFirstUnderscore(name[1..], holder[1..]);
    }
  }

  /** Kubernetes node names never contain an underscore; with such names at
      most one node considers itself the holder of a given lease. */
  lemma LeaderIsUnique(env1: Env, env2: Env, lease: Result<Lease>)
    requires '_' !in Getenv(env1, "NODE_NAME") && '_' !in Getenv(env2, "NODE_NAME")
    requires IsLeader(env1, lease) && IsLeader(env2, lease)
    ensures Getenv(env1, "NODE_NAME") == Getenv(env2, "NODE_NAME")
  {
    var n1, n2 := Getenv(env1, "NODE_NAME"), Getenv(env2, "NODE_NAME");
    var holder := lease.value.holderIdentity.value;
    PrefixEndsAtFirstUnderscore(n1, holder);
    PrefixEndsAtFirstUnderscore(n2, holder);
    assert n1 == holder[..|n1|] == n2;
  }

  /** The holder identity of a lease, with nil read as the empty string. */
  function HolderOf(lease: Lease): string {
    if lease.holderIdentity.Some? then lease.holderIdentity.value else ""
  }

  /** The update handler of `WatchEvents`: the callback runs exactly when
      both objects are leases, the old one is the controller manager's
      lease, and the holder identity changed, nil counting as "". */
  function LeaseUpdateFires(oldObj: WatchedObject, newObj: WatchedObject): (fires: bool)
    ensures fires <==>
      && oldObj.LeaseObject? && newObj.LeaseObject?
      && oldObj.lease.name == ControllerManagerLease
      && HolderOf(oldObj.lease) != HolderOf(newObj.lease)
  {
    match (oldObj, newObj)
    case (LeaseObject(oldLease), LeaseObject(newLease)) =>
      oldLease.name == ControllerManagerLease && HolderOf(oldLease) != HolderOf(newLease)
    case _ => false
  }

  /** A change between a nil holder and an empty holder does not fire. */
  lemma NilToEmptyHolderDoesNotFire(name: string)
    ensures !LeaseUpdateFires(LeaseObject(Lease(name, None)), LeaseObject(Lease(name, Some(""))))
    ensures !LeaseUpdateFires(LeaseObject(Lease(name, Some(""))), LeaseObject(Lease(name, None)))
  {
  }

  /** `GetConfigurationErrors`: the Kubernetes adapter reports no
      configuration problem. */
  function GetConfigurationErrors(): (errors: seq<string>)
    ensures errors == []
  {
    []
  }
}
