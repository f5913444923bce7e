/** The reconciliation engine of the CAPI import controller: one pass over one
    CAPI cluster, from the state it observes to the requeue hint, the error
    and the side effects of that pass. */
module ImportController {
  import opened Kube
  import opened ImportPolicy
  import opened Manifest
  import opened RemoteCluster

  /** defaultRequeueDuration: one minute, as a Go time.Duration (nanoseconds). */
  const RequeueDelay: nat := 60 * 1000 * 1000 * 1000
  /** The fixed name of the registration token in the registry cluster's namespace. */
  const ClusterRegistrationTokenName: string := "default-token"
  /** The suffix that turns a CAPI cluster name into its Rancher cluster name. */
  const RegistrySuffix: string := "-capi"

  const CreateRegistryContext: string := "error creating rancher cluster"
  const RemoteClientContext: string := "getting remote cluster client"
  const ManifestObjectsContext: string := "getting objects from manifest"

  function TokenContext(clusterName: string): string {
    "error getting registration token for cluster " + clusterName
  }

  /** A CAPI cluster: metadata, Status.ControlPlaneReady, and whether its
      DeletionTimestamp is set. */
  datatype CapiCluster = CapiCluster(meta: ObjectMeta, controlPlaneReady: bool, deleting: bool)

  /** A Rancher cluster record, by its status: Status.ClusterName and Status.AgentDeployed. */
  datatype RegistryCluster = RegistryCluster(clusterName: string, agentDeployed: bool)

  /** A Rancher cluster registration token, by Status.ManifestURL. */
  datatype Token = Token(manifestURL: string)

  /** ctrl.Result. */
  datatype Result = Result(requeue: bool, requeueAfter: nat)

  const Done: Result := Result(false, 0)
  const RequeueNow: Result := Result(true, 0)
  const RequeueLater: Result := Result(false, RequeueDelay)

  /** The writes and downloads a pass performs. */
  datatype Effect =
    | CreateRegistryCluster(key: ObjectKey)
    | DownloadManifest(url: string)
    | ApplyManifest(cluster: ObjectKey, manifest: string)

  /** What one pass returns, with the effects it performed, in order. */
  datatype Step = Step(result: Result, err: Option<Error>, effects: seq<Effect>)

  /** What a pass observes. Every read is a function of the key it uses:
      - `clusters`: Get of a CAPI cluster; `namespaces`: Get of a namespace by name;
      - `registry`: Get of a Rancher cluster; `createRegistry`: the outcome of creating one;
      - `tokens`: Get of a registration token (`Ok(None)` is a nil token with no error);
      - `download`: the manifest download by URL;
      - `documents`: the documents the YAML reader yields for a manifest text. */
  datatype World = World(
    clusters: ObjectKey -> Outcome<CapiCluster>,
    namespaces: string -> Outcome<ObjectMeta>,
    registry: ObjectKey -> Outcome<RegistryCluster>,
    createRegistry: ObjectKey -> Option<Error>,
    tokens: ObjectKey -> Outcome<Option<Token>>,
    download: string -> Outcome<string>,
    documents: string -> seq<Document>)

  /** rancherClusterNameFromCAPICluster: the name with the fixed suffix. */
  function RegistryClusterName(capiClusterName: string): (r: string)
    ensures |r| == |capiClusterName| + |RegistrySuffix|
    ensures r[..|capiClusterName|] == capiClusterName && r[|capiClusterName|..] == RegistrySuffix
  {
    capiClusterName + RegistrySuffix
  }

  /** Distinct CAPI cluster names never share a Rancher cluster name. */
  lemma RegistryClusterNameInjective(a: string, b: string)
    requires RegistryClusterName(a) == RegistryClusterName(b)
    ensures a == b
  {
  }

  /** The key of the Rancher cluster that belongs to a CAPI cluster. */
  function RegistryKey(c: CapiCluster): ObjectKey {
    ObjectKey(c.meta.namespace, RegistryClusterName(c.meta.name))
  }

  /** The key of the CAPI cluster itself, which also addresses its remote endpoint. */
  function ClusterKey(c: CapiCluster): ObjectKey {
    ObjectKey(c.meta.namespace, c.meta.name)
  }

  /** The manifest text, or the error, and the downloads performed. */
  datatype Fetch = Fetch(manifest: Outcome<string>, effects: seq<Effect>)

  /** getClusterRegistrationManifest: the token is read from the namespace named
      by the Rancher cluster's Status.ClusterName; a missing or nil token gives
      the empty manifest; otherwise its URL is downloaded, whatever it is. */
  function GetClusterRegistrationManifest(w: World, clusterName: string): (r: Fetch)
    ensures var t := w.tokens(ObjectKey(clusterName, ClusterRegistrationTokenName));
            ((t.Err? && IsNotFound(t.error)) || t == Ok(None) ==> r == Fetch(Ok(""), []))
            && (t.Err? && !IsNotFound(t.error) ==> r == Fetch(Err(Wrapped(TokenContext(clusterName), t.error)), []))
            && (t.Ok? && t.value.Some? ==>
                  r == Fetch(w.download(t.value.value.manifestURL), [DownloadManifest(t.value.value.manifestURL)]))
  {
    match w.tokens(ObjectKey(clusterName, ClusterRegistrationTokenName))
    case Err(e) =>
      if IsNotFound(e) then Fetch(Ok(""), [])
      else Fetch(Err(Wrapped(TokenContext(clusterName), e)), [])
    case Ok(None) => Fetch(Ok(""), [])
    case Ok(Some(token)) =>
      match w.download(token.manifestURL)
      case Err(e) => Fetch(Err(e), [DownloadManifest(token.manifestURL)])
      case Ok(data) => Fetch(Ok(data), [DownloadManifest(token.manifestURL)])
  }

  /** reconcileDelete: a placeholder that succeeds and does nothing. */
  function ReconcileDelete(c: CapiCluster): (r: Step)
    ensures r.result == Done && r.err == None && r.effects == []
  {
    Step(Done, None, [])
  }

  /** reconcileNormal, given the Rancher cluster lookup (`None` when it was NotFound).
      The error of applyImportManifest is dropped: the code returns the earlier
      `err`, which is nil at that point, so an apply always ends the pass with
      an empty result and no error. */
  function ReconcileNormal(w: World, c: CapiCluster, rancher: Option<RegistryCluster>): (r: Step)
    // no Rancher cluster yet: the auto-import policy decides
    ensures rancher.None? && ShouldAutoImport(c.meta, w.namespaces).Err? ==>
              r == Step(Done, Some(ShouldAutoImport(c.meta, w.namespaces).error), [])
    ensures rancher.None? && ShouldAutoImport(c.meta, w.namespaces) == Ok(false) ==> r == Step(Done, None, [])
    ensures rancher.None? && ShouldAutoImport(c.meta, w.namespaces) == Ok(true) ==>
              && r.effects == [CreateRegistryCluster(ObjectKey(c.meta.namespace, c.meta.name + RegistrySuffix))]
              && (w.createRegistry(RegistryKey(c)).None? ==> r.result == RequeueNow && r.err == None)
              && (w.createRegistry(RegistryKey(c)).Some? ==>
                    r.result == Done && r.err == Some(Wrapped(CreateRegistryContext, w.createRegistry(RegistryKey(c)).value)))
    // a Rancher cluster exists
    ensures rancher.Some? && rancher.value.agentDeployed ==> r == Step(Done, None, [])
    ensures rancher.Some? && !rancher.value.agentDeployed ==>
              var fetch := GetClusterRegistrationManifest(w, rancher.value.clusterName);
              && (fetch.manifest.Err? ==> r == Step(Done, Some(fetch.manifest.error), fetch.effects))
              && (fetch.manifest == Ok("") ==> r == Step(RequeueNow, None, fetch.effects))
              && (fetch.manifest.Ok? && fetch.manifest.value != "" ==>
                    r == Step(Done, None, fetch.effects + [ApplyManifest(ClusterKey(c), fetch.manifest.value)]))
  {
    match rancher
    case None =>
      (match ShouldAutoImport(c.meta, w.namespaces)
       case Err(e) => Step(Done, Some(e), [])
       case Ok(false) => Step(Done, None, [])
       case Ok(true) =>
         var key := ObjectKey(c.meta.namespace, RegistryClusterName(c.meta.name));
         match w.createRegistry(key)
         case Some(e) => Step(Done, Some(Wrapped(CreateRegistryContext, e)), [CreateRegistryCluster(key)])
         case None => Step(RequeueNow, None, [CreateRegistryCluster(key)]))
    case Some(rc) =>
      if rc.agentDeployed then Step(Done, None, [])
      else
        var fetch := GetClusterRegistrationManifest(w, rc.clusterName);
        match fetch.manifest
        case Err(e) => Step(Done, Some(e), fetch.effects)
        case Ok(manifest) =>
          if manifest == "" then Step(RequeueNow, None, fetch.effects)
          else
            // applyImportManifest runs here; its error is not what is returned
            Step(Done, None, fetch.effects + [ApplyManifest(ClusterKey(c), manifest)])
  }

  /** Reconcile: the gates in the order the code checks them. */
  function Reconcile(w: World, req: ObjectKey): (r: Step)
    ensures w.clusters(req).Err? && IsNotFound(w.clusters(req).error) ==> r == Step(RequeueNow, None, [])
    ensures w.clusters(req).Err? && !IsNotFound(w.clusters(req).error) ==>
              r == Step(RequeueNow, Some(w.clusters(req).error), [])
    ensures w.clusters(req).Ok? && !w.clusters(req).value.controlPlaneReady ==>
              r == Step(Result(false, 60 * 1000 * 1000 * 1000), None, [])
    ensures w.clusters(req).Ok? && w.clusters(req).value.controlPlaneReady ==>
              var c := w.clusters(req).value;
              var lookup := w.registry(ObjectKey(c.meta.namespace, c.meta.name + RegistrySuffix));
              && (lookup.Err? && !IsNotFound(lookup.error) ==> r == Step(RequeueNow, Some(lookup.error), []))
              && ((lookup.Ok? || IsNotFound(lookup.error)) && c.deleting ==> r == Step(Done, None, []))
              && (lookup.Ok? && !c.deleting ==> r == ReconcileNormal(w, c, Some(lookup.value)))
              && (lookup.Err? && IsNotFound(lookup.error) && !c.deleting ==> r == ReconcileNormal(w, c, None))
  {
    match w.clusters(req)
    case Err(e) =>
      if IsNotFound(e) then Step(RequeueNow, None, [])
      else Step(RequeueNow, Some(e), [])
    case Ok(c) =>
      if !c.controlPlaneReady then Step(RequeueLater, None, [])
      else
        match w.registry(RegistryKey(c))
        case Err(e) =>
          if !IsNotFound(e) then Step(RequeueNow, Some(e), [])
          else if c.deleting then ReconcileDelete(c)
          else ReconcileNormal(w, c, None)
        case Ok(rc) =>
          if c.deleting then ReconcileDelete(c)
          else ReconcileNormal(w, c, Some(rc))
  }

  /** The effects of any pass are safe: a Rancher cluster is only ever created
      for a ready, undeleted CAPI cluster without one, under the derived name in
      the CAPI cluster's namespace, and only when the policy approves; a manifest
      is only applied, as the last effect, to the CAPI cluster's own endpoint,
      when its Rancher cluster exists without a deployed agent, and never with
      an empty manifest; an apply never reports an error or a requeue. */
  lemma ReconcileEffectsAreSafe(w: World, req: ObjectKey)
    ensures var r := Reconcile(w, req);
            && |r.effects| <= 2
            && forall i :: 0 <= i < |r.effects| ==>
                 && w.clusters(req).Ok?
                 && var c := w.clusters(req).value;
                 && c.controlPlaneReady && !c.deleting
                 && (r.effects[i].CreateRegistryCluster? ==>
                       && r.effects == [CreateRegistryCluster(RegistryKey(c))]
                       && w.registry(RegistryKey(c)).Err? && IsNotFound(w.registry(RegistryKey(c)).error)
                       && ShouldAutoImport(c.meta, w.namespaces) == Ok(true))
                 && (r.effects[i].ApplyManifest? ==>
                       && i == |r.effects| - 1
                       && r.effects[i].cluster == ClusterKey(c)
                       && r.effects[i].manifest != ""
                       && w.registry(RegistryKey(c)).Ok? && !w.registry(RegistryKey(c)).value.agentDeployed
                       && r.result == Done && r.err == None)
  {
  }

  /** Scenario: ready cluster, no Rancher cluster, `rancher-auto-import: "true"`
      on the cluster: the Rancher cluster `<name>-capi` is created and the
      pass asks to be requeued at once. */
  lemma ApprovedClusterIsRegistered(w: World, req: ObjectKey)
    requires w.clusters(req).Ok?
    requires var c := w.clusters(req).value;
             && c.controlPlaneReady && !c.deleting
             && c.meta.annotations == map[ImportAnnotation := "true"]
             && w.registry(RegistryKey(c)) == Err(NotFound)
             && w.createRegistry(RegistryKey(c)).None?
    ensures var c := w.clusters(req).value;
            Reconcile(w, req) == Step(RequeueNow, None, [CreateRegistryCluster(ObjectKey(c.meta.namespace, c.meta.name + "-capi"))])
  {
    var c := w.clusters(req).value;
    assert "true" in TrueStrings;
  }

  /** Scenario: ready cluster, no Rancher cluster, no annotation on the cluster
      nor on its namespace: nothing is created and nothing is requeued. */
  lemma UnmarkedClusterIsLeftAlone(w: World, req: ObjectKey)
    requires w.clusters(req).Ok?
    requires var c := w.clusters(req).value;
             && c.controlPlaneReady && !c.deleting
             && ImportAnnotation !in c.meta.annotations
             && w.namespaces(c.meta.namespace).Ok?
             && ImportAnnotation !in w.namespaces(c.meta.namespace).value.annotations
             && w.registry(RegistryKey(c)) == Err(NotFound)
    ensures Reconcile(w, req) == Step(Done, None, [])
  {
  }

  /** An empty manifest URL is downloaded like any other: a token with
      `ManifestURL == ""` leads to a download of "", and the pass ends with the
      download's error if it fails, an immediate requeue if it yields nothing,
      and an apply otherwise. The pass is never "requeue without download". */
  lemma EmptyManifestUrlIsDownloaded(w: World, req: ObjectKey)
    requires w.clusters(req).Ok?
    requires var c := w.clusters(req).value;
             && c.controlPlaneReady && !c.deleting
             && w.registry(RegistryKey(c)).Ok?
             && !w.registry(RegistryKey(c)).value.agentDeployed
             && w.tokens(ObjectKey(w.registry(RegistryKey(c)).value.clusterName, "default-token")) == Ok(Some(Token("")))
    ensures var r := Reconcile(w, req);
            && |r.effects| >= 1 && r.effects[0] == DownloadManifest("")
            && (w.download("").Err? ==> r == Step(Done, Some(w.download("").error), [DownloadManifest("")]))
            && (w.download("") == Ok("") ==> r == Step(RequeueNow, None, [DownloadManifest("")]))
  {
  }

  /** The result of a whole import: what applyImportManifest leaves on the remote
      endpoint, the creates it issues and the error it returns. */
  function ImportSpec(objects: map<ObjKey, Obj>, unreadable: set<ObjKey>, uncreatable: set<ObjKey>,
                      clientErr: Option<Error>, docs: seq<Document>): Applied
  {
    if clientErr.Some? then Applied(objects, [], Some(Wrapped(RemoteClientContext, clientErr.value)))
    else match Flatten(docs)
      case Err(e) => Applied(objects, [], Some(Wrapped(ManifestObjectsContext, e)))
      case Ok(objs) => ApplySpec(objects, unreadable, uncreatable, objs)
  }

  /** Scenario: a manifest of two documents, one object and a list of two, one
      of the three already on the endpoint: the objects are visited in document
      order and the two missing ones are created, in that order; the existing
      one is not recreated. */
  lemma TwoDocumentManifestIsApplied(objects: map<ObjKey, Obj>, unreadable: set<ObjKey>, uncreatable: set<ObjKey>,
                                     a: Obj, b: Obj, c: Obj)
    requires KeyOf(a) != KeyOf(b) && KeyOf(b) != KeyOf(c) && KeyOf(a) != KeyOf(c)
    requires KeyOf(a) !in objects && KeyOf(b) in objects && KeyOf(c) !in objects
    requires KeyOf(a) !in unreadable && KeyOf(b) !in unreadable && KeyOf(c) !in unreadable
    requires KeyOf(a) !in uncreatable && KeyOf(c) !in uncreatable
    ensures var r := ImportSpec(objects, unreadable, uncreatable, None, [Single(a), List([b, c])]);
            && r.creates == [a, c]
            && r.err == None
            && r.objects == objects[KeyOf(a) := a][KeyOf(c) := c]
  {
    var docs := [Single(a), List([b, c])];
    assert docs[1..] == [List([b, c])];
    assert Flatten([List([b, c])]) == Ok([b, c]) by {
      assert [List([b, c])][1..] == [];
      assert [b, c] + [] == [b, c];
    }
    assert [a] + [b, c] == [a, b, c];
    assert Flatten(docs) == Ok([a, b, c]);
    var m1 := objects[KeyOf(a) := a];
    assert [a, b, c][1..] == [b, c] && [b, c][1..] == [c] && [c][1..] == [];
    assert ApplySpec(m1[KeyOf(c) := c], unreadable, uncreatable, []) == Applied(m1[KeyOf(c) := c], [], None);
    assert ApplySpec(m1, unreadable, uncreatable, [c]) == Applied(m1[KeyOf(c) := c], [c], None);
    assert ApplySpec(m1, unreadable, uncreatable, [b, c]) == Applied(m1[KeyOf(c) := c], [c], None);
  }

  /** A second import of the same manifest, after one that returned no error,
      creates nothing and changes nothing on the endpoint. */
  lemma ImportIsIdempotent(objects: map<ObjKey, Obj>, unreadable: set<ObjKey>, uncreatable: set<ObjKey>,
                           clientErr: Option<Error>, docs: seq<Document>)
    requires ImportSpec(objects, unreadable, uncreatable, clientErr, docs).err.None?
    ensures var once := ImportSpec(objects, unreadable, uncreatable, clientErr, docs).objects;
            ImportSpec(once, unreadable, uncreatable, clientErr, docs) == Applied(once, [], None)
  {
    ApplyIsIdempotent(objects, unreadable, uncreatable, Flatten(docs).value);
  }

  /** applyImportManifest: resolve the remote client (`clientErr` is the
      resolver's error, if any), decode the manifest, then create each object
      that is not already there. Nothing is created when the client or the
      decoding fails. */
  method ApplyImportManifest(remote: Endpoint, clientErr: Option<Error>, docs: seq<Document>) returns (err: Option<Error>)
    modifies remote
    ensures var a := ImportSpec(old(remote.objects), remote.unreadable, remote.uncreatable, clientErr, docs);
            remote.objects == a.objects && remote.creates == old(remote.creates) + a.creates && err == a.err
    ensures clientErr.Some? || Flatten(docs).Err? ==>
              err.Some? && remote.objects == old(remote.objects) && remote.creates == old(remote.creates)
  {
    if clientErr.Some? {
      return Some(Wrapped(RemoteClientContext, clientErr.value));
    }
    var objs := ManifestToObjects(docs);
    if objs.Err? {
      return Some(Wrapped(ManifestObjectsContext, objs.error));
    }
    err := remote.Apply(objs.value);
  }

  /** The manifest a step applies, if it applies one (always its last effect). */
  function PendingApply(s: Step): Option<Effect> {
    if |s.effects| > 0 && s.effects[|s.effects| - 1].ApplyManifest? then Some(s.effects[|s.effects| - 1])
    else None
  }

  /** Reconcile with the apply carried out: the returned step is the pure pass,
      whatever the apply did, and the remote endpoint (the one the resolver
      gives for the CAPI cluster's key) holds what the import leaves. The
      apply's own error is handed back separately, to show it is not returned. */
  method ReconcileWithRemote(w: World, req: ObjectKey, remote: Endpoint, clientErr: Option<Error>)
    returns (step: Step, applyErr: Option<Error>)
    modifies remote
    ensures step == Reconcile(w, req)
    ensures PendingApply(step).None? ==>
              applyErr == None && remote.objects == old(remote.objects) && remote.creates == old(remote.creates)
    ensures PendingApply(step).Some? ==>
              var a := ImportSpec(old(remote.objects), remote.unreadable, remote.uncreatable, clientErr,
                                  w.documents(PendingApply(step).value.manifest));
              remote.objects == a.objects && remote.creates == old(remote.creates) + a.creates && applyErr == a.err
    ensures PendingApply(step).Some? ==> step.result == Done && step.err == None
  {
    step := Reconcile(w, req);
    ReconcileEffectsAreSafe(w, req);
    applyErr := None;
    var pending := PendingApply(step);
    if pending.Some? {
      assert step.effects[|step.effects| - 1].ApplyManifest?;
      applyErr := ApplyImportManifest(remote, clientErr, w.documents(pending.value.manifest));
    }
  }
}
