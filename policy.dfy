/**
 * The mutation policy: whether a pod, given its namespace and annotations,
 * should receive the LXCFS patch. Pods in the ignored namespaces never do;
 * elsewhere the mutate annotation is an opt-out, and the status annotation
 * set to "mutated" marks a pod that has already been patched.
 */
module Policy {
  import opened Wrappers
  import opened GoStrings
  import opened KubeTypes
  import opened Config

  /** The opt-out values of the mutate annotation, compared ignoring case. */
  predicate OptsOut(value: string)
    // the same set as the switch on the lower-cased value
    ensures OptsOut(value) <==>
      var lower := ToLower(value);
      lower == "n" || lower == "no" || lower == "false" || lower == "off"
  {
    LowerEqualsIffEqualFold(value, "n");
    LowerEqualsIffEqualFold(value, "no");
    LowerEqualsIffEqualFold(value, "false");
    LowerEqualsIffEqualFold(value, "off");
    EqualFold(value, "n") || EqualFold(value, "no") || EqualFold(value, "false") || EqualFold(value, "off")
  }

  /** The status annotation already says "mutated", ignoring case. */
  predicate MarkedMutated(status: string)
    ensures MarkedMutated(status) <==> ToLower(status) == "mutated"
  {
    LowerEqualsIffEqualFold(status, "mutated");
    EqualFold(status, "mutated")
  }

  /** `admissionRequired`: false in an ignored namespace whatever the
      annotations say; otherwise true unless the annotation under `key`
      opts out. A missing annotation (or a nil map) reads as "". */
  function AdmissionRequired(ignoredList: seq<string>, key: string, meta: ObjectMeta): (required: bool)
    ensures meta.namespace in ignoredList ==> !required
    ensures meta.namespace !in ignoredList ==> (required <==> !OptsOut(Lookup(meta.annotations, key)))
  {
    if meta.namespace in ignoredList then false
    else
      var value := Lookup(meta.annotations, key);
      match ToLower(value)
      case "n" => false
      case "no" => false
      case "false" => false
      case "off" => false
      case _ => true
  }

  /** `mutationRequired`: the status marker overrides everything else. */
  function MutationRequired(ignoredList: seq<string>, meta: ObjectMeta): (required: bool)
    ensures MarkedMutated(Lookup(meta.annotations, AnnotationStatusKey)) ==> !required
    ensures !MarkedMutated(Lookup(meta.annotations, AnnotationStatusKey)) ==>
      required == AdmissionRequired(ignoredList, AnnotationMutateKey, meta)
  {
    var required := AdmissionRequired(ignoredList, AnnotationMutateKey, meta);
    var status := Lookup(meta.annotations, AnnotationStatusKey);
    if ToLower(status) == "mutated" then false else required
  }

  /** The whole policy for the webhook's own ignored list, as one truth table. */
  lemma MutationPolicy(meta: ObjectMeta)
    ensures MutationRequired(IgnoredNamespaces, meta) <==>
      && meta.namespace != "kube-system"
      && meta.namespace != "kube-public"
      && !OptsOut(Lookup(meta.annotations, AnnotationMutateKey))
      && !MarkedMutated(Lookup(meta.annotations, AnnotationStatusKey))
  {
    IgnoredNamespacesAreSystemAndPublic(meta.namespace);
  }

  /** A pod without annotations outside the ignored namespaces is mutated. */
  lemma DefaultRequired(meta: ObjectMeta)
    requires meta.annotations.None? || meta.annotations == Some(map[])
    requires meta.namespace !in IgnoredNamespaces
    ensures MutationRequired(IgnoredNamespaces, meta)
  {
    assert !EqualFold("", "n");
    assert !EqualFold("", "mutated");
  }

  /** Opt-out values match regardless of case; other values do not opt out. */
  lemma OptOutExamples()
    ensures OptsOut("No") && OptsOut("OFF") && OptsOut("False") && OptsOut("n")
    ensures !OptsOut("maybe") && !OptsOut("") && !OptsOut("yes")
  {
    assert EqualFold("No", "no");
    assert EqualFold("OFF", "off");
    assert EqualFold("False", "false");
    assert EqualFold("n", "n");
    assert "maybe"[0] == 'm' && "false"[0] == 'f' && LowerChar('m') != LowerChar('f');
    assert "yes"[0] == 'y' && "off"[0] == 'o' && LowerChar('y') != LowerChar('o');
  }
}
