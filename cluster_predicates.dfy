/** The event filter that keeps already-imported clusters out of reconciliation. */
module ClusterPredicates {
  import opened Kube

  /** annotations.ClusterImportedAnnotation. util/annotations is not part of this
      model; only the presence of this key matters to what is proved here, except
      the examples below, which need it to differ from "some-other-annoations". */
  const ClusterImportedAnnotation: string := "imported"

  /** The objects carried by the four kinds of watch event. */
  datatype UpdateEvent = UpdateEvent(objectOld: ObjectMeta, objectNew: ObjectMeta)
  datatype CreateEvent = CreateEvent(obj: ObjectMeta)
  datatype DeleteEvent = DeleteEvent(obj: ObjectMeta)
  datatype GenericEvent = GenericEvent(obj: ObjectMeta)

  /** processIfClusterNotImported: process the object exactly when it does not
      carry the imported annotation, whatever that annotation's value. */
  function ProcessIfClusterNotImported(obj: ObjectMeta): (process: bool)
    ensures process <==> ClusterImportedAnnotation !in obj.annotations
  {
    !(ClusterImportedAnnotation in obj.annotations)
  }

  /** The four funcs of ClusterWithoutImportedAnnotation: Update filters on the
      new object, the others on the event's object. */
  function UpdateFunc(e: UpdateEvent): (r: bool)
    ensures r <==> ClusterImportedAnnotation !in e.objectNew.annotations
  {
    ProcessIfClusterNotImported(e.objectNew)
  }

  function CreateFunc(e: CreateEvent): (r: bool)
    ensures r <==> ClusterImportedAnnotation !in e.obj.annotations
  {
    ProcessIfClusterNotImported(e.obj)
  }

  function DeleteFunc(e: DeleteEvent): (r: bool)
    ensures r <==> ClusterImportedAnnotation !in e.obj.annotations
  {
    ProcessIfClusterNotImported(e.obj)
  }

  function GenericFunc(e: GenericEvent): (r: bool)
    ensures r <==> ClusterImportedAnnotation !in e.obj.annotations
  {
    ProcessIfClusterNotImported(e.obj)
  }

  /** The four event kinds agree on the same object, and an update ignores its
      old object. */
  lemma EventKindsAgree(obj: ObjectMeta, previous: ObjectMeta)
    ensures UpdateFunc(UpdateEvent(previous, obj)) == CreateFunc(CreateEvent(obj))
    ensures CreateFunc(CreateEvent(obj)) == DeleteFunc(DeleteEvent(obj))
    ensures DeleteFunc(DeleteEvent(obj)) == GenericFunc(GenericEvent(obj))
  {
  }

  /** Only the presence of the key matters: not its value, not the object's
      identity, not its other annotations. */
  lemma OnlyKeyPresenceMatters(a: ObjectMeta, b: ObjectMeta)
    requires (ClusterImportedAnnotation in a.annotations) == (ClusterImportedAnnotation in b.annotations)
    ensures ProcessIfClusterNotImported(a) == ProcessIfClusterNotImported(b)
  {
  }

  /** An update of a cluster annotated `imported: "true"` is filtered out. */
  lemma ImportedClusterIsFiltered()
    ensures !UpdateFunc(UpdateEvent(ObjectMeta("", "", map[]),
                                    ObjectMeta("test-ns", "test-cluster", map[ClusterImportedAnnotation := "true"])))
  {
  }

  /** An update of a cluster with no annotations, or with an empty annotation
      map (the same thing here), passes. */
  lemma UnannotatedClusterPasses()
    ensures UpdateFunc(UpdateEvent(ObjectMeta("", "", map[]), ObjectMeta("test-ns", "test-cluster", map[])))
  {
  }

  /** An update of a cluster carrying only some other annotation passes. */
  lemma OtherAnnotationPasses()
    ensures UpdateFunc(UpdateEvent(ObjectMeta("", "", map[]),
                                   ObjectMeta("", "", map["some-other-annoations" := "true"])))
  {
  }
}
