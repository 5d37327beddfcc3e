/**
 * An abstract stand-in for the Kubernetes `CoreV1Api` client: the cluster
 * state the manager and the reconciler act on, and one method per API call
 * they issue. Every call is appended to `log` whether or not it succeeds;
 * any call may fail (the client raises an `ApiException`), and a failed call
 * changes nothing but the log. Deletion takes effect at once: convergence is
 * not modelled.
 */
module Platform {
  import opened K8sObjects

  /** One request issued to the API server. */
  datatype Call =
    | CreateNamespaceCall(nsBody: Namespace)
    | CreatePodCall(podNamespace: string, podBody: Pod)
    | CreateServiceCall(serviceNamespace: string, serviceBody: Service)
    | DeletePodCall(podName: string, podNs: string)
    | ListNamespaceCall
    | DeleteNamespaceCall(deletedName: string)

  /** Objects that live inside a namespace are keyed by (namespace, name). */
  type Key = (string, string)

  /** The part of a keyed collection that lies outside namespace `ns`. */
  function Outside<T>(m: map<Key, T>, ns: string): (r: map<Key, T>)
    ensures forall k | k in r :: k in m && r[k] == m[k] && k.0 != ns
    ensures forall k | k in m && k.0 != ns :: k in r
  {
    map k | k in m && k.0 != ns :: m[k]
  }

  predicate Distinct<T(==)>(s: seq<T>)
  {
    forall i, j | 0 <= i < j < |s| :: s[i] != s[j]
  }

  class Cluster {
    var namespaces: set<string>
    var pods: map<Key, Pod>
    var services: map<Key, Service>
    var log: seq<Call>

    /** A cluster holding the given namespaces and nothing else. */
    constructor (initial: set<string>)
      ensures namespaces == initial && pods == map[] && services == map[] && log == []
    {
      namespaces, pods, services, log := initial, map[], map[], [];
    }

    method CreateNamespace(body: Namespace) returns (ok: bool)
      modifies this
      ensures log == old(log) + [CreateNamespaceCall(body)]
      ensures namespaces == if ok then old(namespaces) + {body.metadata.name} else old(namespaces)
      ensures pods == old(pods) && services == old(services)
    {
      log := log + [CreateNamespaceCall(body)];
      ok := *;
      if ok {
        namespaces := namespaces + {body.metadata.name};
      }
    }

    method CreateNamespacedPod(namespace: string, body: Pod) returns (ok: bool)
      modifies this
      ensures log == old(log) + [CreatePodCall(namespace, body)]
      ensures pods == if ok then old(pods)[(namespace, body.metadata.name) := body] else old(pods)
      ensures namespaces == old(namespaces) && services == old(services)
    {
      log := log + [CreatePodCall(namespace, body)];
      ok := *;
      if ok {
        pods := pods[(namespace, body.metadata.name) := body];
      }
    }

    /** On success the stored and returned service is `body` with one platform-chosen node port per declared port. */
    method CreateNamespacedService(namespace: string, body: Service) returns (ok: bool, created: Service)
      modifies this
      ensures log == old(log) + [CreateServiceCall(namespace, body)]
      ensures ok ==> |NodePorts(created)| == |body.spec.ports| && created == WithNodePorts(body, NodePorts(created))
      ensures services == if ok then old(services)[(namespace, body.metadata.name) := created] else old(services)
      ensures namespaces == old(namespaces) && pods == old(pods)
    {
      log := log + [CreateServiceCall(namespace, body)];
      ok := *;
      created := body;
      if ok {
        assert |seq(|body.spec.ports|, _ => 0)| == |body.spec.ports|;
        var nodePorts: seq<int> :| |nodePorts| == |body.spec.ports|;
        created := WithNodePorts(body, nodePorts);
        assert NodePorts(created) == nodePorts;
        services := services[(namespace, body.metadata.name) := created];
      }
    }

    method DeleteNamespacedPod(name: string, namespace: string) returns (ok: bool)
      modifies this
      ensures log == old(log) + [DeletePodCall(name, namespace)]
      ensures pods == if ok then old(pods) - {(namespace, name)} else old(pods)
      ensures namespaces == old(namespaces) && services == old(services)
    {
      log := log + [DeletePodCall(name, namespace)];
      ok := *;
      if ok {
        pods := pods - {(namespace, name)};
      }
    }

    /** On success, every namespace exactly once, in an order the platform chooses. */
    method ListNamespace() returns (ok: bool, names: seq<string>)
      modifies this
      ensures log == old(log) + [ListNamespaceCall]
      ensures ok ==> Distinct(names) && (forall n | n in names :: n in namespaces)
                     && (forall n | n in namespaces :: n in names)
      ensures namespaces == old(namespaces) && pods == old(pods) && services == old(services)
    {
      log := log + [ListNamespaceCall];
      ok := *;
      names := [];
      if ok {
        var rest := namespaces;
        while rest != {}
          invariant rest <= namespaces
          invariant Distinct(names)
          invariant forall n | n in names :: n in namespaces && n !in rest
          invariant forall n | n in namespaces :: n in names || n in rest
          decreases rest
        {
          var n :| n in rest;
          names := names + [n];
          rest := rest - {n};
        }
      }
    }

    /** Deleting a namespace removes it together with every pod and service inside it. */
    method DeleteNamespace(name: string) returns (ok: bool)
      modifies this
      ensures log == old(log) + [DeleteNamespaceCall(name)]
      ensures namespaces == if ok then old(namespaces) - {name} else old(namespaces)
      ensures pods == if ok then Outside(old(pods), name) else old(pods)
      ensures services == if ok then Outside(old(services), name) else old(services)
    {
      log := log + [DeleteNamespaceCall(name)];
      ok := *;
      if ok {
        namespaces := namespaces - {name};
        pods := Outside(pods, name);
        services := Outside(services, name);
      }
    }
  }
}
