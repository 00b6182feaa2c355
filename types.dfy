/** The data the Dapr decorator reads and writes: workloads and their binding
    declarations, binding states, output resources and their payloads, and the
    errors that travel with partial results. These types belong to packages
    around the decorator (workloads, components, outputresource, resourcekinds
    and the Kubernetes object types); only the fields the decorator touches are
    kept. */
module RenderTypes {

  datatype Option<T> = None | Some(value: T) {
    function GetOr(default: T): T {
      match this
      case Some(v) => v
      case None => default
    }
  }

  /** A Go `error`. `External` is any error produced by a collaborator (the
      inner renderer, the trait decoder); the decorator only passes it on. */
  datatype Error =
    | External(message: string)
    | TraitRequired(traitKind: string, bindingKind: string)
    | NonKubernetesPayload

  /** The declaration of one binding of a workload; only its kind is read. */
  datatype BindingDecl = BindingDecl(kind: string)

  /** The declared workload (components.GenericComponent): its own name and its
      bindings, keyed by binding name. */
  datatype Workload = Workload(name: string, bindings: map<string, BindingDecl>)

  /** A workload bound to its deployment: `name` is the instance name, which can
      differ from the declared `workload.name`. */
  datatype InstantiatedWorkload = InstantiatedWorkload(name: string, workload: Workload)

  /** A value in a binding's property bag (Go `interface{}`). */
  datatype Value = StringValue(s: string) | OtherValue(repr: string)

  datatype BindingState = BindingState(
    component: string,
    binding: string,
    kind: string,
    properties: map<string, Value>)

  /** The fields of the Dapr trait that the decorator reads. */
  datatype Trait = Trait(appId: string, appPort: int, config: string, protocol: string)

  /** What `FindTrait(Kind, &trait)` reports for a workload: no trait of that
      kind, a trait whose payload could not be decoded, or the decoded trait. */
  datatype TraitLookup =
    | Absent
    | Malformed(error: Error)
    | Present(decoded: Trait)

  /** The resource-kind tag of an output resource. */
  datatype ResourceKind = Kubernetes | OtherKind(name: string)

  type Annotations = map<string, string>

  /** The payload of an output resource (a Go `interface{}`). `rest` stands for
      every part of the object the decorator does not touch; a `None`
      annotation map is a nil Go map. */
  datatype Payload =
    | Deployment(rest: string, templateAnnotations: Option<Annotations>)   // *appsv1.Deployment
    | Unstructured(rest: string, annotations: Option<Annotations>)         // *unstructured.Unstructured
    | OtherObject(rest: string)                                            // any other runtime.Object
    | NotAnObject(rest: string)                                            // not a runtime.Object (or nil)
  {
    predicate IsObject() {
      !NotAnObject?
    }
  }

  datatype OutputResource = OutputResource(kind: ResourceKind, resource: Payload)

  /** What a renderer's `Render` returns: the resources built so far and an
      optional error (both are meaningful at once). */
  datatype RenderOutcome = RenderOutcome(resources: seq<OutputResource>, err: Option<Error>)

  /** What a renderer's `AllocateBindings` returns. */
  datatype BindingsOutcome = BindingsOutcome(bindings: map<string, BindingState>, err: Option<Error>)

  /** `part` occurs in `s` starting at index `i`. */
  predicate OccursAt(s: string, part: string, i: int) {
    0 <= i <= |s| - |part| && s[i..i + |part|] == part
  }

  predicate Contains(s: string, part: string) {
    exists i :: 0 <= i <= |s| && OccursAt(s, part, i)
  }

  /** The text of an error, as `Error()` would give it. */
  function Message(e: Error): string {
    match e
    case External(m) => m
    case TraitRequired(k, b) => "the trait " + k + " is required to use binding " + b
    case NonKubernetesPayload => "found Kubernetes resource with non-Kubernetes payload"
  }

  /** The missing-trait error names both the trait kind and the binding kind. */
  lemma TraitRequiredMessageNamesBoth(traitKind: string, bindingKind: string)
    ensures Contains(Message(TraitRequired(traitKind, bindingKind)), traitKind)
    ensures Contains(Message(TraitRequired(traitKind, bindingKind)), bindingKind)
  {
    var m := Message(TraitRequired(traitKind, bindingKind));
    var p := "the trait ";
    var q := " is required to use binding ";
    assert m == p + traitKind + q + bindingKind;
    assert OccursAt(m, traitKind, |p|);
    assert OccursAt(m, bindingKind, |p| + |traitKind| + |q|);
  }
}
