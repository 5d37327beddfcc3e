/**
 * The HTTP API layer over the one shared instance manager, and the
 * bootstrap that removes namespaces left by earlier experiment runs before
 * that manager is built. Routing and serialisation are the web framework's;
 * what is modelled is what each handler decides and which manager
 * operation it drives.
 */
module Server {
  import opened Wrappers
  import opened Strings
  import opened Json
  import opened Platform
  import opened InstanceManager

  /** What a handler answers: a plain-text body with a status, a JSON body (status 200), or an uncaught exception (status 500). */
  datatype Response = Text(status: int, text: string) | JsonOk(body: Json) | InternalError

  /** The JSON form of an instance: its name, its launch arguments and its port mappings. */
  function InstanceToJson(i: ManagedInstance): Json
  {
    JObject(map["name" := JString(i.instanceName), "args" := StringsToJson(i.args), "ports" := IntMapToJson(i.portMappings)])
  }

  /** Reads name, arguments and port mappings back out of an instance's JSON form. */
  function InstanceFromJson(j: Json): Option<(string, seq<string>, map<string, int>)>
  {
    if j.JObject? && "name" in j.fields && "args" in j.fields && "ports" in j.fields
       && j.fields["name"].JString?
       && JsonToStrings(j.fields["args"]).Some? && JsonToIntMap(j.fields["ports"]).Some?
    then Some((j.fields["name"].s, JsonToStrings(j.fields["args"]).value, JsonToIntMap(j.fields["ports"]).value))
    else None
  }

  /** The JSON form has exactly the fields `name`, `args` and `ports`, holding the instance's name, arguments and port mappings. */
  lemma InstanceJsonFields(i: ManagedInstance)
    ensures
      var j := InstanceToJson(i);
      && j.JObject? && j.fields.Keys == {"name", "args", "ports"}
      && j.fields["name"] == JString(i.instanceName)
      && j.fields["args"] == StringsToJson(i.args)
      && j.fields["ports"] == IntMapToJson(i.portMappings)
  {
  }

  /** The JSON form loses nothing: name, arguments and ports are read back unchanged. */
  lemma InstanceJsonRoundTrip(i: ManagedInstance)
    ensures InstanceFromJson(InstanceToJson(i)) == Some((i.instanceName, i.args, i.portMappings))
  {
    StringsRoundTrip(i.args);
    IntMapRoundTrip(i.portMappings);
  }

  /** The outcome of checking a POST body: rejected with a client error, crashed, or accepted with a name and arguments. */
  datatype PostCheck = Rejected(status: int, message: string) | Crashed | Accepted(name: Json, args: Json)

  /**
   * The checks of `POST /instances/`, in order: the body must be JSON;
   * `name` must be present and not null; `args` defaults to an empty list
   * when absent and must not be null. `None` stands for a body that is not
   * JSON. A JSON body that is not an object has no `get`, which raises.
   */
  function CheckPostBody(body: Option<Json>): (r: PostCheck)
    ensures body.None? ==> r == Rejected(400, "Request is not JSON!")
    ensures body.Some? && !body.value.JObject? ==> r == Crashed
    ensures body.Some? && body.value.JObject? ==>
      var fields := body.value.fields;
      && ((!("name" in fields) || fields["name"] == JNull) ==> r == Rejected(400, "Instance name is missing!"))
      && ("name" in fields && fields["name"] != JNull && "args" in fields && fields["args"] == JNull ==>
            r == Rejected(400, "Instance arguments are missing!"))
      && ("name" in fields && fields["name"] != JNull && !("args" in fields) ==>
            r == Accepted(fields["name"], JArray([])))
      && ("name" in fields && fields["name"] != JNull && "args" in fields && fields["args"] != JNull ==>
            r == Accepted(fields["name"], fields["args"]))
  {
    match body
    case None => Rejected(400, "Request is not JSON!")
    case Some(j) =>
      if !j.JObject? then Crashed
      else
        var name := if "name" in j.fields then j.fields["name"] else JNull;
        if name == JNull then Rejected(400, "Instance name is missing!")
        else
          var args := if "args" in j.fields then j.fields["args"] else JArray([]);
          if args == JNull then Rejected(400, "Instance arguments are missing!")
          else Accepted(name, args)
  }

  /** The name and arguments of an accepted body, when they are a string and a list of strings. */
  function StartArguments(c: PostCheck): (r: Option<(string, seq<string>)>)
    ensures r.Some? ==> c.Accepted? && c.name == JString(r.value.0) && c.args == StringsToJson(r.value.1)
    ensures c.Accepted? && c.name.JString? && JsonToStrings(c.args).Some? ==> r.Some?
  {
    if c.Accepted? && c.name.JString? && JsonToStrings(c.args).Some? then
      Some((c.name.s, JsonToStrings(c.args).value))
    else
      None
  }

  /**
   * `GET /instances/`: a JSON list with one object per registered instance,
   * in the order of the ghost enumeration `order` of the registry's names.
   */
  method GetInstances(instances: map<string, ManagedInstance>) returns (r: Response, ghost order: seq<string>)
    ensures r.JsonOk? && r.body.JArray?
    ensures Distinct(order)
    ensures forall n | n in order :: n in instances
    ensures forall n | n in instances :: n in order
    ensures |r.body.items| == |order| == |instances|
    ensures forall k | 0 <= k < |order| :: r.body.items[k] == InstanceToJson(instances[order[k]])
  {
    var items := [];
    order := [];
    var rest := instances.Keys;
    while rest != {}
      invariant rest <= instances.Keys
      invariant Distinct(order)
      invariant forall n | n in order :: n in instances && n !in rest
      invariant forall n | n in instances :: n in order || n in rest
      invariant |items| == |order| && |order| + |rest| == |instances|
      invariant forall k | 0 <= k < |order| :: items[k] == InstanceToJson(instances[order[k]])
      decreases rest
    {
      var n :| n in rest;
      var item := InstanceToJson(instances[n]);
      items := items + [item];
      order := order + [n];
      rest := rest - {n};
    }
    r := JsonOk(JArray(items));
  }

  /**
   * `POST /instances/`: a rejected or crashed body starts nothing; an
   * accepted one starts the named instance with the given arguments and
   * answers with its JSON form.
   */
  method PostInstances(m: K8sInstanceManager, body: Option<Json>) returns (r: Response)
    requires m.Valid()
    modifies m, m.client
    ensures m.Valid()
    ensures
      var check := CheckPostBody(body);
      && (check.Rejected? ==> r == Text(check.status, check.message) && unchanged(m, m.client))
      && (check.Crashed? ==> r == InternalError && unchanged(m, m.client))
      && (check.Accepted? && StartArguments(check).None? ==> r == InternalError && unchanged(m, m.client))
    ensures
      var start := StartArguments(CheckPostBody(body));
      start.Some? ==>
        var (name, args) := start.value;
        || (&& name in m.instances
            && m.instances[name].instanceName == name && m.instances[name].args == args
            && m.instances == old(m.instances)[name := m.instances[name]]
            && r == JsonOk(InstanceToJson(m.instances[name])))
        || (r == InternalError && m.instances == old(m.instances))
    ensures m.client.namespaces == old(m.client.namespaces)
    ensures r == InternalError ==> m.instances == old(m.instances) && m.client.services == old(m.client.services)
  {
    var check := CheckPostBody(body);
    if check.Rejected? {
      return Text(check.status, check.message);
    }
    if check.Crashed? {
      return InternalError;
    }
    var start := StartArguments(check);
    if start.None? {
      // a name or arguments of another JSON type: see README, "Left out"
      return InternalError;
    }
    var instance := m.StartInstance(start.value.0, Some(start.value.1));
    if instance.Failure? {
      return InternalError;
    }
    r := JsonOk(InstanceToJson(instance.value));
  }

  /** The two methods routed to `/instances/<name>`. */
  datatype ItemMethod = GET | DELETE

  function NotFoundMessage(name: string): string
  {
    "Instance with name " + name + " doesn't exist!"
  }

  /**
   * `GET` or `DELETE /instances/<name>`: an unregistered name gets 404 and
   * changes nothing; `GET` answers with the instance's JSON form; `DELETE`
   * stops the instance, which then is no longer registered.
   */
  method InstanceRoute(m: K8sInstanceManager, verb: ItemMethod, name: string) returns (r: Response)
    requires m.Valid()
    modifies m, m.client
    ensures m.Valid()
    ensures name !in old(m.instances) ==> r == Text(404, NotFoundMessage(name)) && unchanged(m, m.client)
    ensures name in old(m.instances) && verb == GET ==>
      unchanged(m, m.client) && r == JsonOk(InstanceToJson(m.instances[name]))
    ensures name in old(m.instances) && verb == DELETE ==>
      || (&& r == Text(200, "Instance stopped") && m.instances == old(m.instances) - {name}
          && m.client.pods == old(m.client.pods) - {(m.namespace, InternalName(name))}
          && m.client.services == old(m.client.services))
      || (r == InternalError && m.instances == old(m.instances) && m.client.pods == old(m.client.pods))
    ensures name in old(m.instances) && verb == DELETE ==>
      m.client.services == old(m.client.services) && m.client.namespaces == old(m.client.namespaces)
  {
    var instance := m.GetInstance(name);
    if instance.None? {
      return Text(404, NotFoundMessage(name));
    }
    match verb {
      case GET =>
        r := JsonOk(InstanceToJson(instance.value));
      case DELETE =>
        // the registry files every instance under its own name, so the stop cannot end in KeyError
        var outcome := m.StopInstance(instance.value);
        if outcome.Fail? {
          return InternalError;
        }
        r := Text(200, "Instance stopped");
    }
  }

  /** A POSTed instance is served back unchanged by GET. */
  method PostThenGet(m: K8sInstanceManager, name: string, args: seq<string>) returns (created: Response, fetched: Response)
    requires m.Valid()
    modifies m, m.client
    ensures m.Valid()
    ensures created.JsonOk? ==>
      && fetched == created
      && InstanceFromJson(fetched.body).Some?
      && InstanceFromJson(fetched.body).value.0 == name
      && InstanceFromJson(fetched.body).value.1 == args
  {
    var body := JObject(map["name" := JString(name), "args" := StringsToJson(args)]);
    JsonOnlyStrings(args);
    created := PostInstances(m, Some(body));
    fetched := InstanceRoute(m, GET, name);
    if created.JsonOk? {
      InstanceJsonRoundTrip(m.instances[name]);
    }
  }

  lemma JsonOnlyStrings(args: seq<string>)
    ensures StringsToJson(args) != JNull
    ensures JsonToStrings(StringsToJson(args)) == Some(args)
  {
    StringsRoundTrip(args);
  }

  /** After a successful DELETE the instance is gone: a following GET gets 404. */
  method DeleteThenGet(m: K8sInstanceManager, name: string) returns (deleted: Response, fetched: Response)
    requires m.Valid()
    requires name in m.instances
    modifies m, m.client
    ensures m.Valid()
    ensures deleted == Text(200, "Instance stopped") ==> fetched == Text(404, NotFoundMessage(name))
  {
    deleted := InstanceRoute(m, DELETE, name);
    fetched := InstanceRoute(m, GET, name);
  }

  /** Every namespace of an experiment run carries this prefix. */
  const ExperimentPrefix: string := "rce-chaos-"

  /** The namespace of the run started at `timestamp` (a `%Y-%m-%d-%H-%M-%S` rendering of the start time). */
  function ExperimentNamespace(timestamp: string): (ns: string)
    ensures StartsWith(ns, ExperimentPrefix)
  {
    PrefixConcat(ExperimentPrefix, timestamp);
    ExperimentPrefix + timestamp
  }

  /** The names in `names` that an earlier run left behind, in list order. */
  function Leftovers(names: seq<string>): seq<string>
  {
    if names == [] then []
    else
      var last := names[|names| - 1];
      Leftovers(names[..|names| - 1]) + (if StartsWith(last, ExperimentPrefix) then [last] else [])
  }

  /** The delete requests for `names`, in order. */
  function DeleteCalls(names: seq<string>): (r: seq<Call>)
    ensures |r| == |names| && forall k | 0 <= k < |names| :: r[k] == DeleteNamespaceCall(names[k])
  {
    seq(|names|, k requires 0 <= k < |names| => DeleteNamespaceCall(names[k]))
  }

  /** A name is left over exactly when it is listed and carries the experiment prefix. */
  lemma {:induction false} LeftoversExactly(names: seq<string>, n: string)
    ensures n in Leftovers(names) <==> n in names && StartsWith(n, ExperimentPrefix)
    decreases |names|
  {
    if names != [] {
      var init := names[..|names| - 1];
      LeftoversExactly(init, n);
      assert names == init + [names[|names| - 1]];
    }
  }

  /** The namespaces a successful cleanup leaves: those without the experiment prefix. */
  function Survivors(namespaces: set<string>): (r: set<string>)
    ensures forall n | n in r :: n in namespaces && !StartsWith(n, ExperimentPrefix)
    ensures forall n | n in namespaces && !StartsWith(n, ExperimentPrefix) :: n in r
  {
    set n | n in namespaces && !StartsWith(n, ExperimentPrefix)
  }

  /**
   * The bootstrap cleanup: lists the namespaces and deletes, in list order,
   * each one whose name carries the experiment prefix. The first failing
   * request ends the cleanup with `ok == false`.
   */
  method Reconcile(client: Cluster) returns (ok: bool, ghost listed: seq<string>)
    modifies client
    ensures ok ==> Distinct(listed)
    ensures ok ==> (forall n | n in listed :: n in old(client.namespaces))
                   && (forall n | n in old(client.namespaces) :: n in listed)
    ensures ok ==> client.namespaces == Survivors(old(client.namespaces))
    ensures ok ==> client.log == old(client.log) + [ListNamespaceCall] + DeleteCalls(Leftovers(listed))
    ensures Survivors(old(client.namespaces)) <= client.namespaces <= old(client.namespaces)
  {
    var names;
    ok, names := client.ListNamespace();
    listed := names;
    if !ok {
      return;
    }
    ghost var start := client.log;
    ghost var before := client.namespaces;
    var i := 0;
    while i < |names|
      invariant 0 <= i <= |names|
      invariant client.log == start + DeleteCalls(Leftovers(names[..i]))
      invariant client.namespaces == before - set k | 0 <= k < i && StartsWith(names[k], ExperimentPrefix) :: names[k]
    {
      assert names[..i + 1][..i] == names[..i];
      if StartsWith(names[i], ExperimentPrefix) {
        ok := client.DeleteNamespace(names[i]);
        if !ok {
          return;
        }
      }
      i := i + 1;
    }
    assert names[..|names|] == names;
    forall n | n in client.namespaces
      ensures n in Survivors(before)
    {
      var k :| 0 <= k < |names| && names[k] == n;
    }
  }

  /**
   * Process start-up: remove what earlier runs left, then build the
   * manager for this run's namespace with the default image.
   */
  method Bootstrap(client: Cluster, timestamp: string) returns (r: Result<K8sInstanceManager, Raised>)
    modifies client
    ensures r.Success? ==>
      && fresh(r.value) && r.value.Valid() && r.value.client == client
      && r.value.instances == map[]
      && r.value.namespace == ExperimentNamespace(timestamp)
      && r.value.rceImage == DefaultRceImage
      && client.namespaces == Survivors(old(client.namespaces)) + {ExperimentNamespace(timestamp)}
      && forall n | n in client.namespaces && StartsWith(n, ExperimentPrefix) :: n == r.value.namespace
  {
    var ok;
    ghost var listed;
    ok, listed := Reconcile(client);
    if !ok {
      return Failure(ApiException);
    }
    r := K8sInstanceManager.Create(ExperimentNamespace(timestamp), client);
  }

  /** The namespace of this run carries the prefix, so the cleanup of a later run removes it. */
  lemma LaterRunRemovesNamespace(namespaces: set<string>, timestamp: string)
    ensures ExperimentNamespace(timestamp) !in Survivors(namespaces)
  {
  }

  /** Cleanup of a cluster holding two earlier runs and a system namespace keeps only the system namespace. */
  lemma CleanupExample()
    ensures Survivors({"rce-chaos-2024-01-01-00-00-00", "kube-system", "rce-chaos-2024-02-02-00-00-00"}) == {"kube-system"}
  {
    var s := {"rce-chaos-2024-01-01-00-00-00", "kube-system", "rce-chaos-2024-02-02-00-00-00"};
    assert StartsWith("rce-chaos-2024-01-01-00-00-00", ExperimentPrefix);
    assert StartsWith("rce-chaos-2024-02-02-00-00-00", ExperimentPrefix);
    assert "kube-system"[..|ExperimentPrefix|][0] != ExperimentPrefix[0];
  }
}
