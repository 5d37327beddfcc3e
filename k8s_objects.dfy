/**
 * The declarative Kubernetes records the template builders produce and the
 * platform client accepts: namespace, pod and NodePort service, reduced to
 * the fields the builders set.
 */
module K8sObjects {
  import opened Wrappers

  type Labels = map<string, string>

  /** `V1ObjectMeta`; a namespace's metadata carries no labels, written here as the empty map. */
  datatype ObjectMeta = ObjectMeta(name: string, labels: Labels)

  /** `V1Container` */
  datatype Container = Container(name: string, image: string, imagePullPolicy: string, args: seq<string>)

  datatype PodSpec = PodSpec(containers: seq<Container>)

  /** `V1Pod` */
  datatype Pod = Pod(apiVersion: string, kind: string, metadata: ObjectMeta, spec: PodSpec)

  /** `V1ServicePort`; `nodePort` is `None` until the platform assigns one. */
  datatype ServicePort = ServicePort(name: string, port: int, targetPort: int, nodePort: Option<int>)

  datatype ServiceSpec = ServiceSpec(serviceType: string, ports: seq<ServicePort>, selector: Labels)

  /** `V1Service` */
  datatype Service = Service(apiVersion: string, kind: string, metadata: ObjectMeta, spec: ServiceSpec)

  /** `V1Namespace` */
  datatype Namespace = Namespace(apiVersion: string, kind: string, metadata: ObjectMeta)

  /** Kubernetes label-selector semantics: every selector entry is among the labels. */
  predicate Selects(selector: Labels, labels: Labels)
  {
    forall k | k in selector :: k in labels && labels[k] == selector[k]
  }

  /** The node ports of a service's entries, in declaration order (0 where none is set). */
  function NodePorts(s: Service): (r: seq<int>)
    ensures |r| == |s.spec.ports|
    ensures forall k | 0 <= k < |r| :: s.spec.ports[k].nodePort.Some? ==> r[k] == s.spec.ports[k].nodePort.value
  {
    seq(|s.spec.ports|, k requires 0 <= k < |s.spec.ports| => s.spec.ports[k].nodePort.GetOr(0))
  }

  /** The service as the platform returns it: the submitted one with node ports filled in, in declaration order. */
  function WithNodePorts(body: Service, nodePorts: seq<int>): (r: Service)
    requires |nodePorts| == |body.spec.ports|
    ensures r.metadata == body.metadata && r.spec.selector == body.spec.selector
    ensures r.spec.serviceType == body.spec.serviceType
    ensures |r.spec.ports| == |body.spec.ports|
    ensures forall k | 0 <= k < |r.spec.ports| ::
      r.spec.ports[k] == body.spec.ports[k].(nodePort := Some(nodePorts[k]))
  {
    body.(spec := body.spec.(ports :=
      seq(|nodePorts|, k requires 0 <= k < |nodePorts| => body.spec.ports[k].(nodePort := Some(nodePorts[k])))))
  }

  /** The single container of a pod that has exactly one, as every RCE pod does. */
  function ContainerOf(p: Pod): Container
    requires |p.spec.containers| == 1
  {
    p.spec.containers[0]
  }
}
