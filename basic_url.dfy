/**
 * The `BaseUrl` class decorator: it registers the decorated class as a node
 * and copies the endpoints of the class it extends onto it.
 */
module BasicUrl {
  import opened Wrappers
  import opened Registry

  /** The node `BaseUrl(path, relatedTo, pathCombiner)` registers for class `className`. */
  function NodeOf(className: string, normalizedPath: string, relatedTo: Option<string>, combiner: Option<string>): NodeFacts {
    NodeFacts(className, normalizedPath, relatedTo, combiner, false)
  }

  /**
   * The call that propagates one endpoint of the parent: an upsert of the
   * parent's endpoint when the class already has an endpoint of that name
   * (it was overridden), otherwise an addition of a copy.
   */
  function PropagationCommand(view: Snapshot, className: string, endpoint: Endpoint): Command {
    if FindEndpoint(view.nodes, className, endpoint.name).Some? then UpsertEndpoint(className, endpoint.name, endpoint)
    else AddEndpoint(className, endpoint)
  }

  /**
   * `BaseUrl(path, relatedTo, pathCombiner)` applied to class `className`
   * whose prototype parent is named `parentName`. Registry lookups are
   * answered from `view`, the registry as it stands once the node is
   * upserted. `relatedTo` is the related class's name, if one is given.
   */
  method BaseUrl(view: Snapshot, normalizePath: string -> string, path: string, relatedTo: Option<string>,
                 pathCombiner: Option<string>, className: string, parentName: string) returns (cmds: seq<Command>)
    ensures |cmds| >= 1 && cmds[0] == UpsertNode(NodeFacts(className, normalizePath(path), relatedTo, pathCombiner, false))
    ensures FindNode(view.nodes, parentName).None? ==> |cmds| == 1
    ensures FindNode(view.nodes, parentName).Some? ==>
      var parent := FindNode(view.nodes, parentName).value;
      && |cmds| == 1 + |parent.endpoints|
      && forall k :: 0 <= k < |parent.endpoints| ==> cmds[k + 1] == PropagationCommand(view, className, parent.endpoints[k])
    ensures forall k :: 0 <= k < |cmds| ==> Targets(cmds[k], className)
    ensures className != parentName ==> forall k :: 0 <= k < |cmds| ==> !Targets(cmds[k], parentName)
  {
    var normalized := normalizePath(path);
    var node := NodeOf(className, normalized, relatedTo, pathCombiner);
    cmds := [UpsertNode(node)];
    var inheritedNode := FindNode(view.nodes, parentName);
    if inheritedNode.None? {
      return;
    }
    var endpoints := inheritedNode.value.endpoints;
    var k := 0;
    while k < |endpoints|
      invariant 0 <= k <= |endpoints|
      invariant |cmds| == 1 + k && cmds[0] == UpsertNode(node)
      invariant forall i :: 0 <= i < k ==> cmds[i + 1] == PropagationCommand(view, className, endpoints[i])
      invariant forall i :: 0 <= i < |cmds| ==> Targets(cmds[i], className)
    {
      var endpoint := endpoints[k];
      var storedEndpoint := FindEndpoint(view.nodes, node.name, endpoint.name);
      if storedEndpoint.Some? {
        cmds := cmds + [UpsertEndpoint(node.name, endpoint.name, endpoint)];
      } else {
        cmds := cmds + [AddEndpoint(node.name, endpoint)];
      }
      k := k + 1;
    }
  }

  /**
   * An endpoint the class already has is upserted with the parent's own
   * endpoint; any other is added, unchanged. Either way the call carries the
   * parent's endpoint and addresses the class, never the parent.
   */
  lemma PropagationKinds(view: Snapshot, className: string, endpoint: Endpoint)
    ensures var c := PropagationCommand(view, className, endpoint);
      && (c.UpsertEndpoint? <==> FindEndpoint(view.nodes, className, endpoint.name).Some?)
      && (c.AddEndpoint? <==> FindEndpoint(view.nodes, className, endpoint.name).None?)
      && c.endpoint == endpoint
      && c.nodeName == className
  {
  }
}
