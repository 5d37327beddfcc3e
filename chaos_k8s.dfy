/**
 * Resource template builders of the chaos-mesh instance manager: pure
 * functions from primitive parameters to the pod, NodePort service and
 * namespace records it submits to the platform.
 */
module ChaosTemplates {
  import opened Wrappers
  import opened Strings
  import opened K8sObjects

  /** The pod running one RCE node: named and labelled by `nodeName`, always re-pulling `image`. */
  function RcePodTemplate(nodeName: string, image: string, args: Option<seq<string>> := None): (p: Pod)
    ensures p.apiVersion == "v1" && p.kind == "Pod"
    ensures p.metadata.name == nodeName
    ensures p.metadata.labels == map["app" := "rce", "rce-node-name" := nodeName]
    ensures |p.spec.containers| == 1
    ensures ContainerOf(p).name == nodeName && ContainerOf(p).image == image
    ensures ContainerOf(p).imagePullPolicy == "Always"
    ensures args.None? ==> ContainerOf(p).args == []
    ensures args.Some? ==> ContainerOf(p).args == args.value
  {
    Pod(
      "v1", "Pod",
      ObjectMeta(nodeName, map["app" := "rce", "rce-node-name" := nodeName]),
      PodSpec([Container(nodeName, image, "Always", args.GetOr([]))]))
  }

  /** The name of the service port entry for `port`: `port-<port>-<nodeName>`. */
  function PortName(port: int, nodeName: string): string
  {
    "port-" + IntToString(port) + "-" + nodeName
  }

  /** One port entry per requested port; the node port is left for the platform to choose. */
  function PortEntry(port: int, nodeName: string): ServicePort
  {
    ServicePort(PortName(port, nodeName), port, port, None)
  }

  /**
   * The NodePort service exposing the pod of `nodeName`, or `None` when no
   * port list is given at all. An empty list is a list: it gives a service
   * without ports.
   */
  function RceNodePortServiceTemplate(nodeName: string, ports: Option<seq<int>> := None): (r: Option<Service>)
    ensures r.None? <==> ports.None?
    ensures r.Some? ==>
      && r.value.apiVersion == "v1" && r.value.kind == "Service"
      && r.value.metadata.name == nodeName
      && r.value.metadata.labels == map["app" := "rce", "rce-node-name" := nodeName]
      && r.value.spec.serviceType == "NodePort"
      && r.value.spec.selector == r.value.metadata.labels
    ensures r.Some? ==> |r.value.spec.ports| == |ports.value|
  {
    match ports
    case None => None
    case Some(ps) =>
      Some(Service(
        "v1", "Service",
        ObjectMeta(nodeName, map["app" := "rce", "rce-node-name" := nodeName]),
        ServiceSpec(
          "NodePort",
          seq(|ps|, k requires 0 <= k < |ps| => PortEntry(ps[k], nodeName)),
          map["app" := "rce", "rce-node-name" := nodeName])))
  }

  /**
   * Entry `k` of the service is the entry for the `k`-th requested port:
   * named `port-<port>-<nodeName>`, forwarding that port to the same target
   * port, with no node port requested.
   */
  lemma ServicePortEntry(nodeName: string, ports: seq<int>, k: int)
    requires 0 <= k < |ports|
    ensures
      var e := RceNodePortServiceTemplate(nodeName, Some(ports)).value.spec.ports[k];
      && e.name == "port-" + IntToString(ports[k]) + "-" + nodeName
      && e.port == ports[k] && e.targetPort == ports[k] && e.nodePort.None?
  {
  }

  /** A namespace record carrying only its name. */
  function NamespaceTemplate(name: string): (n: Namespace)
    ensures n.apiVersion == "v1" && n.kind == "Namespace"
    ensures n.metadata.name == name && n.metadata.labels == map[]
  {
    Namespace("v1", "Namespace", ObjectMeta(name, map[]))
  }

  /**
   * The service built for `nodeName` selects exactly the pods built for the
   * same node name: it selects the pod of `podNode` if and only if the two
   * names agree.
   */
  lemma ServiceSelectsPodIff(nodeName: string, ports: seq<int>, podNode: string, image: string, args: Option<seq<string>>)
    ensures
      var svc := RceNodePortServiceTemplate(nodeName, Some(ports)).value;
      var pod := RcePodTemplate(podNode, image, args);
      Selects(svc.spec.selector, pod.metadata.labels) <==> nodeName == podNode
  {
    var svc := RceNodePortServiceTemplate(nodeName, Some(ports)).value;
    var pod := RcePodTemplate(podNode, image, args);
    if Selects(svc.spec.selector, pod.metadata.labels) {
      assert "rce-node-name" in svc.spec.selector;
      assert pod.metadata.labels["rce-node-name"] == svc.spec.selector["rce-node-name"];
    }
  }

  /** Two different ports never share an entry name within one service. */
  lemma {:induction false} PortNamesDistinct(p: int, q: int, nodeName: string)
    requires p != q
    ensures PortName(p, nodeName) != PortName(q, nodeName)
  {
    if PortName(p, nodeName) == PortName(q, nodeName) {
      ConcatAssoc("port-" + IntToString(p), "-", nodeName);
      ConcatAssoc("port-", IntToString(p), "-" + nodeName);
      ConcatAssoc("port-" + IntToString(q), "-", nodeName);
      ConcatAssoc("port-", IntToString(q), "-" + nodeName);
      PrefixInjective("port-", IntToString(p) + ("-" + nodeName), IntToString(q) + ("-" + nodeName));
      SuffixInjective(IntToString(p), IntToString(q), "-" + nodeName);
      IntToStringInjective(p, q);
    }
  }

  /** In a service built from a list of ports, entries for different ports have different names. */
  lemma ServicePortNamesDistinct(nodeName: string, ports: seq<int>, j: int, k: int)
    requires 0 <= j < |ports| && 0 <= k < |ports| && ports[j] != ports[k]
    ensures
      var svc := RceNodePortServiceTemplate(nodeName, Some(ports)).value;
      svc.spec.ports[j].name != svc.spec.ports[k].name
  {
    ServicePortEntry(nodeName, ports, j);
    ServicePortEntry(nodeName, ports, k);
    PortNamesDistinct(ports[j], ports[k], nodeName);
  }
}
