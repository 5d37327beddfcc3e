/**
 * The earlier template builders at the repository root: the RCE pod is
 * named `rce-<node>` and its image reference is composed from a registry
 * prefix, an RCE version and an image tag.
 */
module LegacyTemplates {
  import opened Wrappers
  import opened K8sObjects
  import Strings

  /** Registry and owner prefix of every RCE image. */
  const RceImageName: string := "localhost:32000/s0pex"
  const DefaultRceVersion: string := "10.5.0"
  const DefaultImageVersion: string := "latest"

  /** The image reference `<registry>/rce-<rceVersion>:<imageVersion>`. */
  function RceImage(rceVersion: string, imageVersion: string): string
  {
    RceImageName + "/rce-" + rceVersion + ":" + imageVersion
  }

  /** The RCE pod for `nodeName`, pinned to one RCE version through its image and a label. */
  function RcePodTemplate(nodeName: string, args: Option<seq<string>> := None,
                          rceVersion: string := DefaultRceVersion,
                          imageVersion: string := DefaultImageVersion): (p: Pod)
    ensures p.apiVersion == "v1" && p.kind == "Pod"
    ensures p.metadata.name == "rce-" + nodeName
    ensures p.metadata.labels == map["app" := "rce", "rce-node-name" := nodeName, "rce-version" := rceVersion]
    ensures |p.spec.containers| == 1
    ensures ContainerOf(p).name == "rce"
    ensures ContainerOf(p).image == "localhost:32000/s0pex/rce-" + rceVersion + ":" + imageVersion
    ensures ContainerOf(p).imagePullPolicy == "Always"
    ensures args.None? ==> ContainerOf(p).args == []
    ensures args.Some? ==> ContainerOf(p).args == args.value
  {
    Pod(
      "v1", "Pod",
      ObjectMeta("rce-" + nodeName, map["app" := "rce", "rce-node-name" := nodeName, "rce-version" := rceVersion]),
      PodSpec([Container("rce", RceImage(rceVersion, imageVersion), "Always", args.GetOr([]))]))
  }

  /** A namespace record carrying only its name. */
  function NamespaceTemplate(name: string): (n: Namespace)
    ensures n.apiVersion == "v1" && n.kind == "Namespace"
    ensures n.metadata.name == name && n.metadata.labels == map[]
  {
    Namespace("v1", "Namespace", ObjectMeta(name, map[]))
  }

  /**
   * The pod name carries the `rce-` prefix while the node-name label is the
   * raw node name, so the two differ for every node, and pods of different
   * nodes never share a name.
   */
  lemma {:induction false} PodNameVersusLabel(nodeName: string, other: string, args: Option<seq<string>>, rceVersion: string, imageVersion: string)
    ensures
      var p := RcePodTemplate(nodeName, args, rceVersion, imageVersion);
      p.metadata.name != p.metadata.labels["rce-node-name"]
    ensures
      (RcePodTemplate(nodeName, args, rceVersion, imageVersion).metadata.name ==
       RcePodTemplate(other, args, rceVersion, imageVersion).metadata.name) <==> nodeName == other
  {
    var p := RcePodTemplate(nodeName, args, rceVersion, imageVersion);
    assert |p.metadata.name| == |nodeName| + 4;
    if p.metadata.name == RcePodTemplate(other, args, rceVersion, imageVersion).metadata.name {
      Strings.PrefixInjective("rce-", nodeName, other);
    }
  }
}
