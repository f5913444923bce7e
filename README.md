# CAPI cluster import controller: a Dafny model

This project models the core of the Rancher Turtles import controller. The
controller watches Cluster API (CAPI) clusters and, when the layered
`rancher-auto-import` policy approves, registers them with Rancher. It creates
a Rancher cluster record named `<name>-capi`, waits for Rancher's registration
token, then downloads the registration manifest. Last, it applies the manifest
to the CAPI cluster's own API endpoint, creating only the objects that are not
there yet. The model also covers the watch mappers that trigger reconciliation
and the event predicate that filters out clusters already marked imported.

Modules, following the source:

- `Kube` (`kube.dfy`): object keys, object metadata, API errors (`IsNotFound`
  looks through `%w` wrapping as `apierrors.IsNotFound` does), and the outcome
  of a read.
- `ImportPolicy` (`import_policy.dfy`): `strconv.ParseBool` as its fixed set of
  accepted strings, `shouldImport` and `shouldAutoImport`.
- `Manifest` (`manifest.dfy`): a manifest is the sequence of documents its YAML
  reader yields. Each document is classified as `Empty`, `Bad`, `Single` or
  `List`. `toObjects` and `manifestToObjects` are loops proved against the
  specification function `Flatten`.
- `RemoteCluster` (`remote_cluster.dfy`): the target endpoint is a class.
  It holds a map from (gvk, namespace, name) to object, a set of keys whose
  reads fail, a set of keys whose creates fail, and a log of create calls.
  `createObject` and the apply loop are methods proved against `CreateSpec`
  and `ApplySpec`. The lemmas about those functions give idempotence,
  no-patching and stop-at-first-failure.
- `ImportController` (`import_controller.dfy`): one reconcile pass is a
  function from an observed `World` and a request key to a `Step`. A step holds
  the `ctrl.Result`, the error and the effects performed, in order. Every read
  of the world is a function of the key the code uses. `ReconcileWithRemote`
  carries out the apply against an `Endpoint`.
- `EventMappers` (`event_mappers.dfy`): the Rancher-cluster and namespace
  mappers.
- `ClusterPredicates` (`cluster_predicates.dfy`): `ClusterWithoutImportedAnnotation`.

Inputs from outside the core become parameters. The API reads, the Rancher
handlers, the manifest download and the YAML reader are fields of `World`. The
remote-client resolver is a `clientErr` parameter. The target endpoint is an
`Endpoint` object.

## Behaviour as written

The model follows the code as written, including these points where its behaviour is easy to misread:

- An apply failure is not reported. At `import_controller.go:191-192` the code
  returns `err`, not `applyErr`, and `err` is nil there. The model's
  `ReconcileNormal` therefore ends every apply with an empty result and no
  error. `ReconcileWithRemote` hands back the apply's own error next to the
  step, to show that it is not returned.
- An empty manifest URL is downloaded anyway (`import_controller.go:254`). A
  token whose URL is `""` leads to a download of `""`. The outcome depends on
  what that download returns (`EmptyManifestUrlIsDownloaded`). The pass does not
  simply requeue.
- A failed namespace read in `shouldAutoImport` is returned as an error, a
  NotFound namespace included (`import_controller.go:218-221`).
- The namespace mapper lists CAPI clusters in the namespace given by the
  Namespace object's own `GetNamespace()` (`import_controller.go:373`), not by
  its name.
- The Rancher cluster lookup runs before the deletion check. A read error
  other than NotFound is returned even for a cluster being deleted.

## Model

| member | source | states |
|---|---|---|
| `ImportPolicy.ParseBool` | internal/controllers/import_controller.go:303-307 | true exactly for "1", "t", "T", "TRUE", "true", "True"; false exactly for "0", "f", "F", "FALSE", "false", "False"; a syntax error for every other string |
| `ImportPolicy.ShouldImport` | internal/controllers/import_controller.go:298-308 | (false, false) when the annotation is absent, (true, false) when its value does not parse, (true, v) when it parses to v; the value is true exactly when the annotation is present and reads as true |
| `ImportPolicy.ShouldAutoImport` | internal/controllers/import_controller.go:198-226 | a present cluster annotation decides, whatever its value; otherwise the namespace named by the cluster's namespace decides; a failed namespace read is returned as the error |
| `ImportPolicy.ClusterAnnotationOverrides` | internal/controllers/import_controller.go:202-213 | with the annotation present on the cluster, the answer is the same for any namespace lookup and is never an error |
| `ImportPolicy.MalformedValueIsFalse` | internal/controllers/import_controller.go:303-306 | a malformed value counts as present and false, never as an error |
| `ImportPolicy.AbsentEverywhereIsNotEligible` | internal/controllers/import_controller.go:215-225 | no annotation on the cluster nor on its namespace means do not import |
| `Manifest.ToObjects` | internal/controllers/import_controller.go:439-465 | an empty document yields no object and no error, a bad one its error, a single object itself, a list its items in order |
| `Manifest.ManifestToObjects` | internal/controllers/import_controller.go:416-437 | the result is the in-order decoding of the whole stream, or the first error with no partial result |
| `Manifest.FlattenConcat` | internal/controllers/import_controller.go:419-436 | decoding a + b gives the objects of a followed by those of b; an error in a wins over anything in b |
| `Manifest.FlattenFailsAtFirstBad` | internal/controllers/import_controller.go:424-431 | decoding fails exactly when some document is bad, and then with the first bad document's error |
| `Manifest.EmptyDocumentIsSkipped` | internal/controllers/import_controller.go:445-448 | an empty document anywhere in the stream changes nothing |
| `Manifest.ListExpandsInOrder` | internal/controllers/import_controller.go:455-462 | a list document decodes the same as its items given as separate documents, in their original order |
| `RemoteCluster.Endpoint.Get` | internal/controllers/import_controller.go:315-318 | a failing key gives a read error, a stored key its object, any other key NotFound |
| `RemoteCluster.Endpoint.Create` | internal/controllers/import_controller.go:331-333 | one create call is logged; the object is stored unless its create fails |
| `RemoteCluster.Endpoint.CreateObject` | internal/controllers/import_controller.go:310-336 | the endpoint's new objects, create log and the returned error are those of `CreateSpec`: no create for an existing or unreadable key, one create for a NotFound key |
| `RemoteCluster.CreateObjectCases` | internal/controllers/import_controller.go:320-335 | an unreadable key is an error with no create; an existing object means no create and no error; a NotFound object gets exactly one create call |
| `RemoteCluster.Endpoint.Apply` | internal/controllers/import_controller.go:282-293 | the endpoint's new objects, create log and error are those of `ApplySpec`: createObject on each object in order, stopping at the first error |
| `RemoteCluster.ApplyConcat` | internal/controllers/import_controller.go:282-293 | applying a + b is applying a, then, only if a returned no error, b from the state a left; what a created before a failure stays created |
| `RemoteCluster.ApplyOnlyAdds` | internal/controllers/import_controller.go:320-325 | an apply never removes or changes an existing object; every new key was created by a logged create, and every create was for a key that was absent and readable |
| `RemoteCluster.ApplySuccessCoversAll` | internal/controllers/import_controller.go:282-295 | after an apply without error, every object's key is on the endpoint |
| `RemoteCluster.ApplyAllPresentIsNoop` | internal/controllers/import_controller.go:320-325 | when every object is already there, an apply creates nothing and changes nothing |
| `RemoteCluster.ApplyIsIdempotent` | internal/controllers/import_controller.go:310-336 | applying the same objects a second time, after a first apply without error, makes zero create calls and leaves the endpoint as it was |
| `ImportController.RegistryClusterName` | internal/controllers/import_controller.go:397-399 | the Rancher cluster name is the CAPI cluster name followed by the fixed suffix "-capi" |
| `ImportController.RegistryClusterNameInjective` | internal/controllers/import_controller.go:397-399 | two CAPI cluster names with the same Rancher cluster name are equal |
| `ImportController.GetClusterRegistrationManifest` | internal/controllers/import_controller.go:237-261 | the token is read at (Status.ClusterName, "default-token"); NotFound or a nil token gives "" with no download; another read error is returned wrapped; otherwise the token's URL is downloaded and the download's text or error is the result |
| `ImportController.ReconcileDelete` | internal/controllers/import_controller.go:228-235 | the deletion path returns an empty result, no error and no effects |
| `ImportController.ReconcileNormal` | internal/controllers/import_controller.go:148-196 | with no Rancher cluster: policy error returned, no approval gives no-op, approval gives exactly one create of `<name>-capi` in the cluster's namespace then an immediate requeue (or the wrapped create error); agent deployed gives no-op; otherwise a fetch error is returned, an empty manifest requeues without apply, and a manifest is applied to the cluster's own endpoint with an empty result and no error |
| `ImportController.Reconcile` | internal/controllers/import_controller.go:112-146 | the gates in order: NotFound cluster requeues with no error; other read errors requeue with the error; control plane not ready gives RequeueAfter one minute, no error, no effects; a Rancher lookup error other than NotFound requeues with the error; a deletion marker gives an empty result with no effects; otherwise reconcileNormal |
| `ImportController.ReconcileEffectsAreSafe` | internal/controllers/import_controller.go:148-196 | any pass creates a Rancher cluster only for a ready, undeleted cluster without one that the policy approves, and only under the derived key; it applies only a non-empty manifest to the cluster's own endpoint, as its last effect, when the agent is not deployed, and then reports no error |
| `ImportController.ApprovedClusterIsRegistered` | internal/controllers/import_controller.go:152-171 | an annotation "true" on a ready cluster without a Rancher cluster creates `<name>-capi` and requeues at once |
| `ImportController.UnmarkedClusterIsLeftAlone` | internal/controllers/import_controller.go:152-160 | no annotation on the cluster or its namespace gives no create and no requeue |
| `ImportController.EmptyManifestUrlIsDownloaded` | internal/controllers/import_controller.go:250-260 | an empty manifest URL is still downloaded; a failed download is returned as the error and an empty body requeues |
| `ImportController.TwoDocumentManifestIsApplied` | internal/controllers/import_controller.go:277-293 | a manifest of one object and a list of two, one of them already present, creates exactly the two missing objects, in document order |
| `ImportController.ImportIsIdempotent` | internal/controllers/import_controller.go:263-296 | importing the same manifest again, after an import without error, makes no create call and changes nothing |
| `ImportController.ApplyImportManifest` | internal/controllers/import_controller.go:263-296 | a client or decoding error is returned wrapped and nothing is created; otherwise the decoded objects are applied in order |
| `ImportController.ReconcileWithRemote` | internal/controllers/import_controller.go:182-195 | the returned step is the pure pass whatever the apply did; the endpoint holds what the import leaves; an apply always ends with an empty result and no error |
| `EventMappers.RancherClusterToCapiCluster` | internal/controllers/import_controller.go:338-354 | at most one request, exactly when the CAPI cluster with the Rancher cluster's namespace and name is found, and it names that cluster |
| `EventMappers.NamespaceToCapiClusters` | internal/controllers/import_controller.go:356-395 | no request for a non-Namespace object, an annotation not reading true, or a list error; otherwise one request per listed cluster, in list order, from the list for the object's GetNamespace() |
| `ClusterPredicates.ProcessIfClusterNotImported` | util/predicates/cluster_predicates.go:33-45 | true exactly when the object does not carry the imported annotation |
| `ClusterPredicates.UpdateFunc` | util/predicates/cluster_predicates.go:18-20 | an update passes exactly when its new object lacks the imported annotation |
| `ClusterPredicates.CreateFunc` | util/predicates/cluster_predicates.go:21-23 | a create passes exactly when its object lacks the imported annotation |
| `ClusterPredicates.DeleteFunc` | util/predicates/cluster_predicates.go:24-26 | a delete passes exactly when its object lacks the imported annotation |
| `ClusterPredicates.GenericFunc` | util/predicates/cluster_predicates.go:27-29 | a generic event passes exactly when its object lacks the imported annotation |
| `ClusterPredicates.EventKindsAgree` | util/predicates/cluster_predicates.go:16-31 | the four event kinds give the same answer for the same object; an update ignores its old object |
| `ClusterPredicates.OnlyKeyPresenceMatters` | util/predicates/cluster_predicates.go:37-44 | objects that agree on whether the key is present get the same answer, whatever the value, identity or other annotations |
| `ClusterPredicates.ImportedClusterIsFiltered` | util/predicates/cluster_predicates_test.go:22-35 | an update of a cluster annotated imported "true" is filtered out |
| `ClusterPredicates.UnannotatedClusterPasses` | util/predicates/cluster_predicates_test.go:37-73 | an update of a cluster without annotations, or with an empty annotation map, passes |
| `ClusterPredicates.OtherAnnotationPasses` | util/predicates/cluster_predicates.go:37-44 | an update of a cluster with only an unrelated annotation passes |

## Left out

- `SetupWithManager` (import_controller.go:54-105): controller wiring, watch registration and event filters belong to the framework.
- `downloadManifest` (import_controller.go:401-414): HTTP I/O; it is the `download` oracle of `World`, by URL.
- Byte-level YAML and JSON handling: the YAML reader, `ToJSON`, `json.Unmarshal`, the unstructured decoder and the 4096-byte buffer. These are foreign library calls. Their outcome for each document is the `Document` datatype, given per manifest text by the `documents` oracle.
- `DefaultUnstructuredConverter.ToUnstructured` (import_controller.go:283-286): the decoded objects are already unstructured, so the conversion is modelled as always succeeding.
- The `rancher` package handlers and `annotations.HasAnnotation` are not part of this model. The handlers are lookups by key that return a value or an error, and a NotFound handler read is taken to return no Rancher cluster. `HasAnnotation` is read as key presence.
- The value of `annotations.ClusterImportedAnnotation` lives in util/annotations, which is not part of this model. The model uses the placeholder "imported"; only its presence is used.
- `remoteClientGetter`: a foreign client resolver; only its error and the endpoint it yields are modelled.
- The content of the created Rancher cluster beyond its name and namespace: it is recorded by key.
- Logging, the event recorder and the RBAC markers: not behaviour.
- Per-key serialisation and worker-pool concurrency: delegated to the framework.
- internal/test/envtest.go: test-environment bootstrap.
- util/predicates/cluster_predicates_test.go: the Ginkgo suite itself; its assertions are the `ClusterPredicates` example lemmas.
