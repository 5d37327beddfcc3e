/**
 * The instance lifecycle manager: a registry from logical instance name to
 * managed instance, backed by one pod and one NodePort service per instance
 * inside the manager's own namespace on the platform.
 */
module InstanceManager {
  import opened Wrappers
  import opened Strings
  import opened K8sObjects
  import opened Platform
  import ChaosTemplates
  import LegacyTemplates

  /**
   * A managed instance: its logical name, launch arguments and the node
   * port assigned to each port role. `OnK8s` is the Kubernetes-backed kind,
   * which also remembers its namespace.
   */
  datatype ManagedInstance =
    | Plain(instanceName: string, args: seq<string>, portMappings: map<string, int>)
    | OnK8s(instanceName: string, namespace: string, args: seq<string>, portMappings: map<string, int>)

  /** A managed instance; missing launch arguments and port mappings default to empty ones. */
  function NewManagedInstance(instanceName: string, args: Option<seq<string>> := None,
                              portMappings: Option<map<string, int>> := None): (i: ManagedInstance)
    ensures i.Plain? && i.instanceName == instanceName
    ensures args.None? ==> i.args == []
    ensures args.Some? ==> i.args == args.value
    ensures portMappings.None? ==> i.portMappings == map[]
    ensures portMappings.Some? ==> i.portMappings == portMappings.value
  {
    Plain(instanceName, args.GetOr([]), portMappings.GetOr(map[]))
  }

  /** A Kubernetes-backed managed instance, defaulting like `NewManagedInstance`. */
  function NewK8sManagedInstance(instanceName: string, namespace: string, args: Option<seq<string>> := None,
                                 portMappings: Option<map<string, int>> := None): (i: ManagedInstance)
    ensures i.OnK8s? && i.instanceName == instanceName && i.namespace == namespace
    ensures args.None? ==> i.args == []
    ensures args.Some? ==> i.args == args.value
    ensures portMappings.None? ==> i.portMappings == map[]
    ensures portMappings.Some? ==> i.portMappings == portMappings.value
  {
    var base := NewManagedInstance(instanceName, args, portMappings);
    OnK8s(base.instanceName, namespace, base.args, base.portMappings)
  }

  /** What an operation raised: a platform client error, or the registry's `KeyError`. */
  datatype Raised = ApiException | KeyError(key: string)

  const DefaultRceImage: string := "localhost:32000/s0pex/rce-10.5.0:latest"

  /** The fixed pair of ports every instance exposes: the RCE port, then the SSH port. */
  const ExposedPorts: seq<int> := [20001, 31005]

  /** The platform-visible name of instance `name`. */
  function InternalName(name: string): string
  {
    "rce-pod-" + name
  }

  /** Different logical names never share platform objects. */
  lemma InternalNameInjective(a: string, b: string)
    ensures InternalName(a) == InternalName(b) <==> a == b
  {
    if InternalName(a) == InternalName(b) {
      PrefixInjective("rce-pod-", a, b);
    }
  }

  /** The pod submitted for an instance. */
  function PodFor(name: string, image: string, args: Option<seq<string>>): Pod
  {
    ChaosTemplates.RcePodTemplate(InternalName(name), image, args)
  }

  /** The NodePort service submitted for an instance, before the platform assigns node ports. */
  function ServiceFor(name: string): (s: Service)
    ensures |s.spec.ports| == 2
    ensures s.metadata.name == InternalName(name)
  {
    ChaosTemplates.RceNodePortServiceTemplate(InternalName(name), Some(ExposedPorts)).value
  }

  /** A registry whose every entry is registered under its own name. */
  predicate KeysAreNames(r: map<string, ManagedInstance>)
  {
    forall n | n in r :: r[n].instanceName == n
  }

  /**
   * Entry `i`, filed under `n`, is backed on the platform: its pod exists and
   * its service exists with the instance's ports as node ports, in the
   * declared order.
   */
  ghost predicate EntryBacked(n: string, i: ManagedInstance, ns: string,
                              pods: map<Key, Pod>, services: map<Key, Service>)
  {
    var key := (ns, InternalName(n));
    && i.OnK8s? && i.instanceName == n && i.namespace == ns
    && i.portMappings.Keys == {"rce", "ssh"}
    && key in pods
    && key in services
    && services[key] == WithNodePorts(ServiceFor(n), [i.portMappings["rce"], i.portMappings["ssh"]])
  }

  ghost predicate RegistryBacked(reg: map<string, ManagedInstance>, ns: string,
                                 pods: map<Key, Pod>, services: map<Key, Service>)
  {
    forall n | n in reg :: EntryBacked(n, reg[n], ns, pods, services)
  }

  /** Creating or replacing a pod never takes the backing away from a registered instance. */
  lemma PodWritePreservesBacking(reg: map<string, ManagedInstance>, ns: string,
                                 pods: map<Key, Pod>, services: map<Key, Service>, key: Key, pod: Pod)
    requires RegistryBacked(reg, ns, pods, services)
    ensures RegistryBacked(reg, ns, pods[key := pod], services)
  {
    forall n | n in reg
      ensures EntryBacked(n, reg[n], ns, pods[key := pod], services)
    {
      assert (ns, InternalName(n)) in pods[key := pod];
    }
  }

  /** Filing a backed entry under `name` keeps every other entry backed. */
  lemma StartPreservesBacking(reg: map<string, ManagedInstance>, ns: string,
                              pods: map<Key, Pod>, services: map<Key, Service>,
                              name: string, inst: ManagedInstance, svc: Service)
    requires RegistryBacked(reg, ns, pods, services)
    requires EntryBacked(name, inst, ns, pods, services[(ns, InternalName(name)) := svc])
    ensures RegistryBacked(reg[name := inst], ns, pods, services[(ns, InternalName(name)) := svc])
  {
    var services' := services[(ns, InternalName(name)) := svc];
    var reg' := reg[name := inst];
    forall n | n in reg'
      ensures EntryBacked(n, reg'[n], ns, pods, services')
    {
      if n != name {
        InternalNameInjective(n, name);
        assert services'[(ns, InternalName(n))] == services[(ns, InternalName(n))];
      }
    }
  }

  /** Deleting the pod of `name` and dropping `name` from the registry keeps every other entry backed. */
  lemma StopPreservesBacking(reg: map<string, ManagedInstance>, ns: string,
                             pods: map<Key, Pod>, services: map<Key, Service>, name: string)
    requires RegistryBacked(reg, ns, pods, services)
    ensures RegistryBacked(reg - {name}, ns, pods - {(ns, InternalName(name))}, services)
  {
    forall n | n in reg - {name}
      ensures EntryBacked(n, reg[n], ns, pods - {(ns, InternalName(name))}, services)
    {
      InternalNameInjective(n, name);
    }
  }

  class K8sInstanceManager {
    var instances: map<string, ManagedInstance>
    var metaInformation: map<string, string>
    const namespace: string
    const client: Cluster
    const rceImage: string

    /**
     * The registry invariant: the meta information describes this manager,
     * its namespace exists, and every registered instance is backed by its
     * pod and by a service whose node ports are the instance's ports.
     */
    ghost predicate Valid()
      reads this, client
    {
      && metaInformation == map["namespace" := namespace, "rce_image" := rceImage]
      && namespace in client.namespaces
      && RegistryBacked(instances, namespace, client.pods, client.services)
    }

    /** The registry: each entry is filed under its own name and backed on the platform. */
    function Instances(): (r: map<string, ManagedInstance>)
      reads this, client
      ensures Valid() ==> KeysAreNames(r)
      ensures Valid() ==> forall n | n in r :: (namespace, InternalName(n)) in client.pods
    {
      instances
    }

    /** The registry entry for `name`, if any. */
    function GetInstance(name: string): (r: Option<ManagedInstance>)
      reads this, client
      ensures r.Some? <==> name in instances
      ensures r.Some? ==> r.value == instances[name]
      ensures Valid() && r.Some? ==> r.value.instanceName == name
    {
      if name in instances then Some(instances[name]) else None
    }

    function GetMetaInformation(): (r: map<string, string>)
      reads this, client
      ensures Valid() ==> r == map["namespace" := namespace, "rce_image" := rceImage]
    {
      metaInformation
    }

    constructor Init(namespace: string, client: Cluster, rceImage: string)
      requires namespace in client.namespaces
      ensures Valid()
      ensures this.namespace == namespace && this.client == client && this.rceImage == rceImage
      ensures instances == map[]
    {
      this.namespace := namespace;
      this.client := client;
      this.rceImage := rceImage;
      instances := map[];
      metaInformation := map["namespace" := namespace, "rce_image" := rceImage];
    }

    /**
     * Builds a manager: first requests the namespace, and fails with the
     * client's error when that request fails.
     */
    static method Create(namespace: string, client: Cluster, rceImage: string := DefaultRceImage)
      returns (r: Result<K8sInstanceManager, Raised>)
      modifies client
      ensures client.log == old(client.log) + [CreateNamespaceCall(ChaosTemplates.NamespaceTemplate(namespace))]
      ensures client.pods == old(client.pods) && client.services == old(client.services)
      ensures r.Success? ==>
        && fresh(r.value) && r.value.Valid()
        && r.value.namespace == namespace && r.value.client == client && r.value.rceImage == rceImage
        && r.value.instances == map[]
        && r.value.GetMetaInformation() == map["namespace" := namespace, "rce_image" := rceImage]
        && client.namespaces == old(client.namespaces) + {namespace}
      ensures r.Failure? ==> r.error == ApiException && client.namespaces == old(client.namespaces)
    {
      var ok := client.CreateNamespace(ChaosTemplates.NamespaceTemplate(namespace));
      if !ok {
        return Failure(ApiException);
      }
      var m := new K8sInstanceManager.Init(namespace, client, rceImage);
      r := Success(m);
    }

    /**
     * Starts instance `name`: creates its pod, then its NodePort service for
     * the RCE and SSH ports, and files the instance under `name`, replacing
     * any entry already there. A client error is passed on as it is: a pod
     * already created is not removed again.
     */
    method StartInstance(name: string, args: Option<seq<string>> := None) returns (r: Result<ManagedInstance, Raised>)
      requires Valid()
      modifies this, client
      ensures Valid()
      ensures metaInformation == old(metaInformation) && client.namespaces == old(client.namespaces)
      ensures
        var key := (namespace, InternalName(name));
        var pod := PodFor(name, rceImage, args);
        r.Success? ==>
          && r.value == OnK8s(name, namespace, args.GetOr([]), r.value.portMappings)
          && r.value.portMappings.Keys == {"rce", "ssh"}
          && instances == old(instances)[name := r.value]
          && |instances| == |old(instances)| + (if name in old(instances) then 0 else 1)
          && client.pods == old(client.pods)[key := pod]
          && client.services == old(client.services)[key :=
               WithNodePorts(ServiceFor(name), [r.value.portMappings["rce"], r.value.portMappings["ssh"]])]
          && client.log == old(client.log) + [CreatePodCall(namespace, pod), CreateServiceCall(namespace, ServiceFor(name))]
      ensures
        var key := (namespace, InternalName(name));
        var pod := PodFor(name, rceImage, args);
        r.Failure? ==>
          && r.error == ApiException
          && instances == old(instances) && client.services == old(client.services)
          && ((client.log == old(client.log) + [CreatePodCall(namespace, pod)] && client.pods == old(client.pods))
              || (client.log == old(client.log) + [CreatePodCall(namespace, pod), CreateServiceCall(namespace, ServiceFor(name))]
                  && client.pods == old(client.pods)[key := pod]))
    {
      var internalName := InternalName(name);
      var podTemplate := PodFor(name, rceImage, args);
      PodWritePreservesBacking(instances, namespace, client.pods, client.services, (namespace, internalName), podTemplate);
      var ok := client.CreateNamespacedPod(namespace, podTemplate);
      if !ok {
        return Failure(ApiException);
      }
      var serviceTemplate := ServiceFor(name);
      ghost var issued := [CreatePodCall(namespace, podTemplate), CreateServiceCall(namespace, serviceTemplate)];
      assert old(client.log) + issued == client.log + [CreateServiceCall(namespace, serviceTemplate)];
      var service;
      ok, service := client.CreateNamespacedService(namespace, serviceTemplate);
      if !ok {
        return Failure(ApiException);
      }
      ghost var nodePorts := NodePorts(service);
      assert service.spec.ports[0].nodePort == Some(nodePorts[0]);
      assert service.spec.ports[1].nodePort == Some(nodePorts[1]);
      var portMappings := map["rce" := service.spec.ports[0].nodePort.value, "ssh" := service.spec.ports[1].nodePort.value];
      assert nodePorts == [nodePorts[0], nodePorts[1]];
      var instance := NewK8sManagedInstance(name, namespace, args, Some(portMappings));
      assert instance == OnK8s(name, namespace, args.GetOr([]), portMappings);
      assert service == WithNodePorts(serviceTemplate, [portMappings["rce"], portMappings["ssh"]]);
      StartPreservesBacking(instances, namespace, client.pods, old(client.services), name, instance, service);
      instances := instances[name := instance];
      r := Success(instance);
    }

    /**
     * Stops `instance`: deletes its pod, then removes its registry entry.
     * The service is left in place. The pod delete is issued before the
     * registry is consulted, so stopping an unregistered name still deletes
     * that pod and then fails with `KeyError`.
     */
    method StopInstance(instance: ManagedInstance) returns (r: Outcome<Raised>)
      requires Valid()
      modifies this, client
      ensures Valid()
      ensures metaInformation == old(metaInformation)
      ensures client.log == old(client.log) + [DeletePodCall(InternalName(instance.instanceName), namespace)]
      ensures client.services == old(client.services) && client.namespaces == old(client.namespaces)
      ensures
        var name := instance.instanceName;
        var key := (namespace, InternalName(name));
        && (r.Pass? ==>
              name in old(instances) && instances == old(instances) - {name} && client.pods == old(client.pods) - {key})
        && (r.Fail? && r.error.KeyError? ==>
              r.error.key == name && name !in old(instances)
              && instances == old(instances) && client.pods == old(client.pods) - {key})
        && (r.Fail? && r.error.ApiException? ==>
              instances == old(instances) && client.pods == old(client.pods))
    {
      var name := instance.instanceName;
      StopPreservesBacking(instances, namespace, client.pods, client.services, name);
      var ok := client.DeleteNamespacedPod(InternalName(name), namespace);
      if !ok {
        return Fail(ApiException);
      }
      if name !in instances {
        assert instances - {name} == instances;
        return Fail(KeyError(name));
      }
      instances := instances - {name};
      r := Pass;
    }
  }

  /**
   * A looked-up instance is backed on the platform: its pod and its service
   * exist in the manager's namespace, and the service's node ports are the
   * instance's `rce` and `ssh` ports, in that order.
   */
  lemma LookupIsBacked(m: K8sInstanceManager, name: string)
    requires m.Valid()
    ensures m.GetInstance(name).Some? ==>
      var i := m.GetInstance(name).value;
      var key := (m.namespace, InternalName(name));
      && i.OnK8s? && i.namespace == m.namespace
      && i.portMappings.Keys == {"rce", "ssh"}
      && key in m.client.pods && key in m.client.services
      && NodePorts(m.client.services[key]) == [i.portMappings["rce"], i.portMappings["ssh"]]
  {
    if name in m.instances {
      var i := m.instances[name];
      var key := (m.namespace, InternalName(name));
      assert EntryBacked(name, i, m.namespace, m.client.pods, m.client.services);
      var service := m.client.services[key];
      var ports := [i.portMappings["rce"], i.portMappings["ssh"]];
      assert service == WithNodePorts(ServiceFor(name), ports);
      assert NodePorts(service)[0] == ports[0] && NodePorts(service)[1] == ports[1];
    }
  }

  /** The manager's default image is the one the legacy pod template composes from its default versions. */
  lemma DefaultImageMatchesLegacy(nodeName: string, args: Option<seq<string>>)
    ensures ContainerOf(LegacyTemplates.RcePodTemplate(nodeName, args)).image == DefaultRceImage
  {
  }
}
