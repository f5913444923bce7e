/** The two watch mappers that turn a change on a Rancher cluster or on a
    namespace into reconcile requests for CAPI clusters. */
module EventMappers {
  import opened Kube
  import opened ImportPolicy
  import opened ImportController

  /** A reconcile request: the NamespacedName of a CAPI cluster. */
  datatype Request = Request(key: ObjectKey)

  /** The Go type of a watched object: a corev1.Namespace or anything else. */
  datatype Kind = NamespaceKind | OtherKind(name: string)

  /** A watched object, by its type and metadata. */
  datatype WatchedObject = WatchedObject(kind: Kind, meta: ObjectMeta)

  /** rancherClusterToCapiCluster: look up the CAPI cluster with the Rancher
      cluster's own namespace and name; request it if found, otherwise (NotFound
      or any other error) request nothing. */
  function RancherClusterToCapiCluster(o: ObjectMeta, clusters: ObjectKey -> Outcome<CapiCluster>): (reqs: seq<Request>)
    ensures |reqs| <= 1
    ensures |reqs| == 1 <==> clusters(ObjectKey(o.namespace, o.name)).Ok?
    ensures |reqs| == 1 ==>
              var c := clusters(ObjectKey(o.namespace, o.name)).value;
              reqs[0] == Request(ObjectKey(c.meta.namespace, c.meta.name))
  {
    match clusters(ObjectKey(o.namespace, o.name))
    case Err(_) => []
    case Ok(c) => [Request(ObjectKey(c.meta.namespace, c.meta.name))]
  }

  /** namespaceToCapiClusters: for a namespace whose own annotation says
      import, list the CAPI clusters in the namespace given by the object's
      GetNamespace() (not by its name) and request each, in list order. */
  method NamespaceToCapiClusters(o: WatchedObject, list: string -> Outcome<seq<CapiCluster>>) returns (reqs: seq<Request>)
    ensures !o.kind.NamespaceKind? ==> reqs == []
    ensures !SaysImport(o.meta.annotations) ==> reqs == []
    ensures list(o.meta.namespace).Err? ==> reqs == []
    ensures o.kind.NamespaceKind? && SaysImport(o.meta.annotations) && list(o.meta.namespace).Ok? ==>
              var items := list(o.meta.namespace).value;
              && |reqs| == |items|
              && forall i :: 0 <= i < |items| ==>
                   reqs[i] == Request(ObjectKey(items[i].meta.namespace, items[i].meta.name))
  {
    if !o.kind.NamespaceKind? {
      return [];
    }
    var autoImport := ShouldImport(o.meta.annotations).value;
    if !autoImport {
      return [];
    }
    var listed := list(o.meta.namespace);
    if listed.Err? {
      return [];
    }
    var items := listed.value;
    if |items| == 0 {
      return [];
    }
    reqs := [];
    var i := 0;
    while i < |items|
      invariant 0 <= i <= |items|
      invariant |reqs| == i
      invariant forall j :: 0 <= j < i ==> reqs[j] == Request(ObjectKey(items[j].meta.namespace, items[j].meta.name))
    {
      reqs := reqs + [Request(ObjectKey(items[i].meta.namespace, items[i].meta.name))];
      i := i + 1;
    }
  }
}
