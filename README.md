# RCE instance lifecycle manager, modelled in Dafny

This project models the core of a small service. The service provisions disposable
"RCE nodes" on a Kubernetes cluster as targets for chaos experiments. The model covers:

- **Template builders** (`chaos_k8s.dfy`, `legacy_k8s.dfy`). Pure functions build the
  pod, NodePort service and namespace records. The records are datatypes in
  `k8s_objects.dfy`.
- **The platform** (`platform.dfy`). The class `Platform.Cluster` stands in for the
  Kubernetes `CoreV1Api` client. It holds the cluster's namespaces, pods and services,
  and a log of every request issued. Any request may fail. A failed request changes
  nothing but the log. On success, the service request returns one platform-chosen
  node port per declared port, in declaration order.
- **The instance manager** (`instance_manager.dfy`). The datatype `ManagedInstance` is
  the managed instance. The class `K8sInstanceManager` owns the registry and the meta
  information. Its methods are `Create`, `StartInstance` and `StopInstance`. Its
  invariant `Valid()` says three things:
  - the meta information describes the manager;
  - the manager's namespace exists;
  - every registered instance is filed under its own name, has its pod, and has a
    service whose node ports are the instance's `rce`/`ssh` ports.
- **The API layer and bootstrap** (`server.dfy`, with the JSON value type in
  `json.dfy`). This covers `instance_to_json` and the POST-body checks. It covers the
  handlers for `/instances/` and `/instances/<name>` over the manager, the cleanup of
  namespaces left by earlier runs, and the construction of this run's manager.

Python exceptions become values. Platform errors are `ApiException`. The registry's
`pop` on a missing key is `KeyError`. An exception that escapes a handler is the
response `InternalError` (HTTP 500).

Behaviour of the code worth knowing, all of it modelled:

- The manager does not reject a registered name. When the platform accepts both
  creates, the entry is replaced (`StartInstance`:
  `instances == old(instances)[name := r.value]`, size unchanged).
- The two port roles are `"rce"` and `"ssh"`.
- The service template returns nothing only when the port list is absent. An empty
  list gives a service with no ports.
- `stop_instance` on an unregistered instance first issues the pod delete, then fails
  with `KeyError`. The registry is unchanged, but the delete request has been sent.
- `stop_instance` never deletes the service.
- The pod template declares no ports. Only the service names the port pair.

## Model

| member | source | states |
|---|---|---|
| `InstanceManager.NewManagedInstance` | chaos-mesh-approach/src/instance_manager.py:23-40 | missing args become `[]` and missing port mappings become `{}`; given values are stored unchanged |
| `InstanceManager.NewK8sManagedInstance` | chaos-mesh-approach/src/instance_manager.py:88-106 | the Kubernetes-backed instance defaults like the base and also records its namespace |
| `InstanceManager.InternalNameInjective` | chaos-mesh-approach/src/instance_manager.py:236 | `rce-pod-<name>` names differ exactly when the logical names differ, so instances never share pods or services |
| `InstanceManager.K8sInstanceManager.Instances` | chaos-mesh-approach/src/instance_manager.py:126-134 | under the invariant, every registry entry is filed under its own name and its pod exists in the manager's namespace |
| `InstanceManager.K8sInstanceManager.GetInstance` | chaos-mesh-approach/src/instance_manager.py:136-146 | returns the entry if and only if the name is registered, else nothing; under the invariant the entry carries the looked-up name |
| `InstanceManager.K8sInstanceManager.GetMetaInformation` | chaos-mesh-approach/src/instance_manager.py:173-180 | under the invariant it is exactly `{"namespace": ns, "rce_image": image}` |
| `InstanceManager.K8sInstanceManager.Init` | chaos-mesh-approach/src/instance_manager.py:210-222 | with the base initialisation of lines 114-124, and once the namespace exists (line 218), a new manager has an empty registry and the meta information `{"namespace", "rce_image"}`, and satisfies the invariant |
| `InstanceManager.K8sInstanceManager.Create` | chaos-mesh-approach/src/instance_manager.py:195-222 | issues exactly one namespace creation; on success the namespace exists, the registry is empty and the meta information is `{"namespace", "rce_image"}`; on failure the client error is returned and no manager exists |
| `InstanceManager.K8sInstanceManager.StartInstance` | chaos-mesh-approach/src/instance_manager.py:224-257 | issues pod then service creation. On success the registry maps the name to an instance with that name and args, ports `rce`/`ssh` are the first and second node ports returned for `[20001, 31005]`, other entries are unchanged, and an existing entry is replaced with the size unchanged. On failure the registry is unchanged, and a pod created before the failure stays |
| `InstanceManager.K8sInstanceManager.StopInstance` | chaos-mesh-approach/src/instance_manager.py:259-271 | always issues the pod delete first; the service is never touched. On success the pod is gone and only that name leaves the registry. An unregistered name gets the delete and then `KeyError`, with the registry unchanged. If the delete fails, nothing changes |
| `InstanceManager.PodWritePreservesBacking` | chaos-mesh-approach/src/instance_manager.py:240 | creating a pod never removes the backing of a registered instance |
| `InstanceManager.StartPreservesBacking` | chaos-mesh-approach/src/instance_manager.py:246-256 | filing a backed instance under its name keeps every other entry backed |
| `InstanceManager.StopPreservesBacking` | chaos-mesh-approach/src/instance_manager.py:269-271 | deleting one instance's pod and entry keeps every other entry backed |
| `InstanceManager.LookupIsBacked` | chaos-mesh-approach/src/instance_manager.py:236-256 | under the invariant, a looked-up instance lives in the manager's namespace, its pod and service exist, and the service's node ports are its `rce` and `ssh` ports in that order |
| `ChaosTemplates.RcePodTemplate` | chaos-mesh-approach/src/k8s.py:8-45 | the pod and its single container are named `node_name`; labels are exactly `app=rce`, `rce-node-name=node_name`; image as given; pull policy `Always`; args `[]` when absent, else as given |
| `ChaosTemplates.RceNodePortServiceTemplate` | chaos-mesh-approach/src/k8s.py:48-95 | no service exactly when no port list is given. Otherwise: a `NodePort` service named `node_name` with the pod's labels, the selector equal to those labels, and one entry per requested port |
| `ChaosTemplates.ServicePortEntry` | chaos-mesh-approach/src/k8s.py:76-86 | entry `k` is named `port-<p_k>-<node_name>`, has `port == target_port == p_k` and no node port |
| `ChaosTemplates.ServiceSelectsPodIff` | chaos-mesh-approach/src/k8s.py:88-91 | the service built for a node selects the pod built for another node if and only if the two node names are equal |
| `ChaosTemplates.PortNamesDistinct` | chaos-mesh-approach/src/k8s.py:78 | different ports give different port-entry names |
| `ChaosTemplates.ServicePortNamesDistinct` | chaos-mesh-approach/src/k8s.py:76-86 | within one service, entries for different requested ports have different names |
| `ChaosTemplates.NamespaceTemplate` | chaos-mesh-approach/src/k8s.py:109-115 | the namespace's metadata name is `name` |
| `Strings.IntToStringInjective` | chaos-mesh-approach/src/k8s.py:78 | the decimal rendering of an integer used in port names loses no information |
| `LegacyTemplates.RcePodTemplate` | src/k8s.py:10-51 | pod named `rce-<node_name>`; labels exactly `app`, `rce-node-name` (raw node name), `rce-version`; container `rce` with image `localhost:32000/s0pex/rce-<rce_version>:<image_version>`, pull policy `Always`, args `[]` when absent |
| `LegacyTemplates.PodNameVersusLabel` | src/k8s.py:32-35 | the pod name never equals its node-name label, and pods of different nodes never share a name |
| `InstanceManager.DefaultImageMatchesLegacy` | src/k8s.py:10-43 | the legacy pod template with default versions uses exactly the manager's default image `DefaultRceImage` (chaos-mesh-approach/src/instance_manager.py line 196) |
| `LegacyTemplates.NamespaceTemplate` | src/k8s.py:65-71 | the namespace's metadata name is `name` |
| `Server.InstanceJsonFields` | chaos-mesh-approach/src/server.py:39-43 | the JSON form has exactly the keys `name`, `args`, `ports`, holding the instance's name, args and port mappings |
| `Server.InstanceJsonRoundTrip` | chaos-mesh-approach/src/server.py:39-43 | reading the JSON form back gives the same name, args and port mappings |
| `Server.CheckPostBody` | chaos-mesh-approach/src/server.py:58-66 | checks run in order: a non-JSON body gives 400 "Request is not JSON!"; a missing or null `name` gives 400; a null `args` gives 400; a missing `args` becomes `[]`; present `args` pass through unchanged; a non-object body raises |
| `Server.StartArguments` | chaos-mesh-approach/src/server.py:64-67 | the name and args given to `start_instance` are exactly the accepted JSON values |
| `Server.PostInstances` | chaos-mesh-approach/src/server.py:57-68 | a rejected or crashing body, or an accepted one whose name is not a string or whose args are not a list of strings, gets its error response and changes nothing, issuing no request. An accepted string name with string args starts that name with those args, answers with its JSON form, and leaves other entries unchanged. The namespaces never change. A 500 after a start attempt leaves the registry and the services as they were |
| `Server.GetInstances` | chaos-mesh-approach/src/server.py:53-55 | one JSON object per registry entry, each entry exactly once, so the list length is the registry size |
| `Server.InstanceRoute` | chaos-mesh-approach/src/server.py:71-82 | an unregistered name gets 404 and nothing changes; GET returns the entry's JSON form. DELETE answers 200 "Instance stopped" with the name removed, the pod deleted and the service kept, or 500 with the registry, pods and services unchanged. A DELETE never changes services or namespaces and never ends in `KeyError` |
| `Server.PostThenGet` | chaos-mesh-approach/src/server.py:57-78 | after a successful POST, a GET of the same name returns the same body, which carries the posted name and args |
| `Server.DeleteThenGet` | chaos-mesh-approach/src/server.py:71-82 | after a successful DELETE, a GET of the same name returns 404 |
| `Server.ExperimentNamespace` | chaos-mesh-approach/src/server.py:96 | the run's namespace name starts with `rce-chaos-` |
| `Server.LeftoversExactly` | chaos-mesh-approach/src/server.py:88-92 | a listed name is selected for deletion if and only if it starts with `rce-chaos-` |
| `Server.Reconcile` | chaos-mesh-approach/src/server.py:87-92 | lists the namespaces, then issues one delete per listed name with the prefix, in list order. On success exactly the unprefixed namespaces remain. Unprefixed namespaces are never removed |
| `Server.Bootstrap` | chaos-mesh-approach/src/server.py:85-97 | runs the cleanup, then builds the manager for `rce-chaos-<timestamp>` with the default image and an empty registry. Afterwards the only prefixed namespace is this run's |
| `Server.LaterRunRemovesNamespace` | chaos-mesh-approach/src/server.py:90-96 | this run's namespace is among those a later run's cleanup removes |
| `Server.CleanupExample` | chaos-mesh-approach/src/server.py:88-92 | two earlier runs' namespaces plus `kube-system` are reduced to `kube-system` |

## Left out

- The real Kubernetes API is not modelled, only the abstract `Cluster`. `Cluster` lets
  any request fail. A create on an existing name may succeed and replace the
  stored object. The server's conflict error is one of the allowed failures. It does not model not-found errors,
  readiness, or asynchronous deletion: a deleted namespace disappears at once. It
  accepts objects in a namespace it does not hold.
- Flask is not modelled: no routing, no 405 for other methods, no `jsonify`, no
  `request.is_json` / `get_json` parsing. A body that is not JSON is `None`. A
  malformed body sent with the JSON content type, which Flask rejects on its own, is
  not modelled.
- `PostInstances`: a `name` that is not a JSON string, or `args` that are not a list of
  strings, is answered with an internal error and starts nothing. The source passes
  such values to the manager unchanged: a numeric name becomes part of the pod name and
  a registry key.
- JSON numbers are integers. Floating-point numbers are not modelled.
- `GetInstances`: the order of the list is an arbitrary enumeration of the registry,
  not the dictionary's insertion order.
- `InstanceManager.K8sInstanceManager.Instances` returns the registry as a value. The
  source returns the live dictionary, which a caller could mutate.
- `GET /` (the liveness text with the meta information's Python `repr`) is not
  modelled, because it is string formatting of a dictionary for display only.
- `datetime.now().strftime(...)`: the timestamp is an opaque string parameter of
  `Bootstrap` and `ExperimentNamespace`.
- Logging, `config.load_kube_config` and the chaos-mesh client are left out. The client
  is created but never used.
- `src/server.py` is not part of this model. It is a start-up script. Its only logic,
  the `rce-chaos-` cleanup, is the same as the cleanup modelled in `Reconcile`.
- Concurrency is not modelled. Requests are handled one at a time. The source has no
  locking.
- Exceptions other than the client's, such as network errors or timeouts, are folded
  into `ApiException`.
- No duplicate rejection and no compensating rollback are modelled, because the source
  has neither.
