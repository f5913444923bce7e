/** The auto-import policy: reading the "rancher-auto-import" annotation on a
    CAPI cluster and, when the cluster does not carry it, on its namespace. */
module ImportPolicy {
  import opened Kube

  /** The annotation that marks a cluster or a namespace for auto-import. */
  const ImportAnnotation: string := "rancher-auto-import"

  /** The strings strconv.ParseBool reads as true, and those it reads as false. */
  const TrueStrings: set<string> := {"1", "t", "T", "TRUE", "true", "True"}
  const FalseStrings: set<string> := {"0", "f", "F", "FALSE", "false", "False"}

  /** strconv.ParseBool: `None` stands for its syntax error. */
  function ParseBool(s: string): (r: Option<bool>)
    ensures r == Some(true) <==> s in TrueStrings
    ensures r == Some(false) <==> s in FalseStrings
    ensures r == None <==> s !in TrueStrings && s !in FalseStrings
  {
    if s == "1" || s == "t" || s == "T" || s == "true" || s == "TRUE" || s == "True" then Some(true)
    else if s == "0" || s == "f" || s == "F" || s == "false" || s == "FALSE" || s == "False" then Some(false)
    else None
  }

  /** The pair (hasLabel, labelValue) that shouldImport returns. */
  datatype Decision = Decision(present: bool, value: bool)

  /** shouldImport: whether the annotation is there, and whether it says true. */
  function ShouldImport(annotations: map<string, string>): (d: Decision)
    ensures ImportAnnotation !in annotations ==> d == Decision(false, false)
    ensures ImportAnnotation in annotations && ParseBool(annotations[ImportAnnotation]).None? ==>
              d == Decision(true, false)
    ensures ImportAnnotation in annotations && ParseBool(annotations[ImportAnnotation]).Some? ==>
              d == Decision(true, ParseBool(annotations[ImportAnnotation]).value)
    ensures d.value <==> ImportAnnotation in annotations && annotations[ImportAnnotation] in TrueStrings
  {
    if ImportAnnotation !in annotations then Decision(false, false)
    else match ParseBool(annotations[ImportAnnotation])
      case None => Decision(true, false)
      case Some(b) => Decision(true, b)
  }

  /** True when the annotation is there and reads as true. */
  predicate SaysImport(annotations: map<string, string>) {
    ImportAnnotation in annotations && annotations[ImportAnnotation] in TrueStrings
  }

  /** shouldAutoImport: the cluster's own annotation decides when it is there,
      whatever its value; otherwise the namespace named by the cluster's
      namespace is read, and a failed read is returned as the error. */
  function ShouldAutoImport(cluster: ObjectMeta, namespaces: string -> Outcome<ObjectMeta>): (r: Outcome<bool>)
    ensures ImportAnnotation in cluster.annotations ==> r == Ok(SaysImport(cluster.annotations))
    ensures ImportAnnotation !in cluster.annotations && namespaces(cluster.namespace).Err? ==>
              r == Err(namespaces(cluster.namespace).error)
    ensures ImportAnnotation !in cluster.annotations && namespaces(cluster.namespace).Ok? ==>
              r == Ok(SaysImport(namespaces(cluster.namespace).value.annotations))
  {
    var own := ShouldImport(cluster.annotations);
    if own.present && own.value then Ok(true)
    else if own.present && !own.value then Ok(false)
    else match namespaces(cluster.namespace)
      case Err(e) => Err(e)
      case Ok(ns) => Ok(ShouldImport(ns.annotations).value)
  }

  /** A present cluster annotation decides alone: the namespace lookup is not
      consulted, so any two namespace views give the same answer. */
  lemma ClusterAnnotationOverrides(cluster: ObjectMeta, ns1: string -> Outcome<ObjectMeta>, ns2: string -> Outcome<ObjectMeta>)
    requires ImportAnnotation in cluster.annotations
    ensures ShouldAutoImport(cluster, ns1) == ShouldAutoImport(cluster, ns2)
    ensures ShouldAutoImport(cluster, ns1).Ok?
  {
  }

  /** A malformed value counts as "present, do not import", on the cluster and
      on the namespace alike; nothing is raised for it. */
  lemma MalformedValueIsFalse(annotations: map<string, string>)
    requires ImportAnnotation in annotations && ParseBool(annotations[ImportAnnotation]).None?
    ensures ShouldImport(annotations) == Decision(true, false)
    ensures !SaysImport(annotations)
  {
  }

  /** No annotation on the cluster nor on its namespace: not imported. */
  lemma AbsentEverywhereIsNotEligible(cluster: ObjectMeta, namespaces: string -> Outcome<ObjectMeta>)
    requires ImportAnnotation !in cluster.annotations
    requires namespaces(cluster.namespace).Ok?
    requires ImportAnnotation !in namespaces(cluster.namespace).value.annotations
    ensures ShouldAutoImport(cluster, namespaces) == Ok(false)
  {
  }
}
