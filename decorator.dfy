/** The Dapr trait decorator: a renderer that wraps an inner workload renderer.
    It adds a binding state for every Dapr invoke binding a workload declares,
    and stamps Dapr sidecar annotations on the Kubernetes deployments the inner
    renderer produced.

    The inner renderer's call and the trait lookup `FindTrait(Kind, &trait)`
    are collaborators: their results are inputs here (`inner`, `lookup`). */
module DaprDecorator {
  import opened RenderTypes
  import opened Decimal

  const EnabledKey := "dapr.io/enabled"
  const AppIdKey := "dapr.io/app-id"
  const AppPortKey := "dapr.io/app-port"
  const ConfigKey := "dapr.io/config"
  const ProtocolKey := "dapr.io/protocol"

  const AppIdProperty := "appId"

  /** The five annotation keys are different strings. */
  lemma KeysDistinct()
    ensures EnabledKey != AppIdKey && EnabledKey != AppPortKey && EnabledKey != ConfigKey
    ensures EnabledKey != ProtocolKey && AppIdKey != AppPortKey && AppIdKey != ConfigKey
    ensures AppIdKey != ProtocolKey && AppPortKey != ConfigKey && AppPortKey != ProtocolKey
    ensures ConfigKey != ProtocolKey
  {
    assert EnabledKey[8] == 'e' && AppIdKey[8] == 'a' && ConfigKey[8] == 'c' && ProtocolKey[8] == 'p';
    assert |AppIdKey| == 14 && |AppPortKey| == 16;
  }

  /** The Dapr app id: the trait's, or the given workload name when it is empty. */
  function AppId(t: Trait, workloadName: string): string {
    if t.appId == "" then workloadName else t.appId
  }

  // ---------------------------------------------------------------------------
  // Annotations on payloads (getAnnotations / setAnnotations)

  /** The annotation bag the decorator writes into, if the payload has one: the
      pod-template annotations of a Deployment, the object annotations of an
      Unstructured; a nil map reads as an empty one. Other objects have none. */
  function GetAnnotations(p: Payload): (bag: Option<Annotations>)
    requires p.IsObject()
    ensures bag.Some? <==> p.Deployment? || p.Unstructured?
    ensures p.Deployment? && p.templateAnnotations.Some? ==> bag == p.templateAnnotations
    ensures p.Unstructured? && p.annotations.Some? ==> bag == p.annotations
    ensures p.Deployment? && p.templateAnnotations.None? ==> bag == Some(map[])
    ensures p.Unstructured? && p.annotations.None? ==> bag == Some(map[])
  {
    match p
    case Deployment(_, a) => Some(a.GetOr(map[]))
    case Unstructured(_, a) => Some(a.GetOr(map[]))
    case OtherObject(_) => None
  }

  /** The payload once the bag has been written. For a Deployment the bag handed
      out is the live template map (attached if it was nil), so the writes land
      in the object directly; for Unstructured `setAnnotations` writes it back. */
  function StoreAnnotations(p: Payload, bag: Annotations): (q: Payload)
    requires p.Deployment? || p.Unstructured?
  {
    match p
    case Deployment(rest, _) => Deployment(rest, Some(bag))
    case Unstructured(rest, _) => Unstructured(rest, Some(bag))
  }

  /** Writing a bag and reading it back gives that bag; the shape of the payload
      and everything outside its annotations stay as they were. */
  lemma StoreThenGet(p: Payload, bag: Annotations)
    requires p.Deployment? || p.Unstructured?
    ensures StoreAnnotations(p, bag).IsObject()
    ensures GetAnnotations(StoreAnnotations(p, bag)) == Some(bag)
    ensures StoreAnnotations(p, bag).Deployment? == p.Deployment?
    ensures StoreAnnotations(p, bag).rest == p.rest
  {
  }

  /** Writing back the bag just read changes the payload only by attaching an
      empty map where there was none. */
  lemma GetThenStore(p: Payload)
    requires p.Deployment? || p.Unstructured?
    ensures p.Deployment? && p.templateAnnotations.Some? ==> StoreAnnotations(p, GetAnnotations(p).value) == p
    ensures p.Unstructured? && p.annotations.Some? ==> StoreAnnotations(p, GetAnnotations(p).value) == p
  {
  }

  // ---------------------------------------------------------------------------
  // The annotations Render stamps

  /** The keys Render writes for a trait: always enabled and app-id; app-port
      when the port is non-zero; config and protocol when they are non-empty. */
  function WrittenKeys(t: Trait): set<string> {
    {EnabledKey, AppIdKey}
    + (if t.appPort != 0 then {AppPortKey} else {})
    + (if t.config != "" then {ConfigKey} else {})
    + (if t.protocol != "" then {ProtocolKey} else {})
  }

  function DaprAnnotations(t: Trait, workloadName: string): Annotations {
    map[EnabledKey := "true", AppIdKey := AppId(t, workloadName)]
    + (if t.appPort != 0 then map[AppPortKey := DecimalString(t.appPort)] else map[])
    + (if t.config != "" then map[ConfigKey := t.config] else map[])
    + (if t.protocol != "" then map[ProtocolKey := t.protocol] else map[])
  }

  /** The Dapr annotations on their own: the written keys, with their values. */
  lemma DaprAnnotationsMeaning(t: Trait, workloadName: string)
    ensures DaprAnnotations(t, workloadName).Keys == WrittenKeys(t)
    ensures DaprAnnotations(t, workloadName)[EnabledKey] == "true"
    ensures DaprAnnotations(t, workloadName)[AppIdKey] == AppId(t, workloadName)
    ensures t.appPort != 0 ==> DaprAnnotations(t, workloadName)[AppPortKey] == DecimalString(t.appPort)
    ensures t.config != "" ==> DaprAnnotations(t, workloadName)[ConfigKey] == t.config
    ensures t.protocol != "" ==> DaprAnnotations(t, workloadName)[ProtocolKey] == t.protocol
  {
    KeysDistinct();
    var base := map[EnabledKey := "true", AppIdKey := AppId(t, workloadName)];
    var withPort := base + (if t.appPort != 0 then map[AppPortKey := DecimalString(t.appPort)] else map[]);
    assert withPort[EnabledKey] == "true" && withPort[AppIdKey] == AppId(t, workloadName);
    var withConfig := withPort + (if t.config != "" then map[ConfigKey := t.config] else map[]);
    assert withConfig[EnabledKey] == "true" && withConfig[AppIdKey] == AppId(t, workloadName);
    assert t.appPort != 0 ==> withConfig[AppPortKey] == DecimalString(t.appPort);
  }

  /** A bag after decoration. */
  function Annotate(bag: Annotations, t: Trait, workloadName: string): Annotations {
    bag + DaprAnnotations(t, workloadName)
  }

  /** What decoration does to a bag, key by key: the Dapr keys with their values
      (the app id defaulted to the workload name), every other key kept as it
      was, nothing else added. */
  lemma AnnotateMeaning(bag: Annotations, t: Trait, workloadName: string)
    ensures Annotate(bag, t, workloadName).Keys == bag.Keys + WrittenKeys(t)
    ensures Annotate(bag, t, workloadName)[EnabledKey] == "true"
    ensures Annotate(bag, t, workloadName)[AppIdKey] == (if t.appId == "" then workloadName else t.appId)
    ensures t.appPort != 0 ==> Annotate(bag, t, workloadName)[AppPortKey] == DecimalString(t.appPort)
    ensures t.config != "" ==> Annotate(bag, t, workloadName)[ConfigKey] == t.config
    ensures t.protocol != "" ==> Annotate(bag, t, workloadName)[ProtocolKey] == t.protocol
    ensures forall k :: k in bag && k !in WrittenKeys(t) ==> Annotate(bag, t, workloadName)[k] == bag[k]
  {
    DaprAnnotationsMeaning(t, workloadName);
  }

  /** Annotate reads the trait's app id only through AppId. */
  lemma AnnotateByAppId(bag: Annotations, t: Trait, name: string, t': Trait, name': string)
    requires AppId(t, name) == AppId(t', name')
    requires t.appPort == t'.appPort && t.config == t'.config && t.protocol == t'.protocol
    ensures Annotate(bag, t, name) == Annotate(bag, t', name')
  {
  }

  lemma UpdateIsUnion<K, V>(m: map<K, V>, k: K, v: V)
    ensures m[k := v] == m + map[k := v]
  {
  }

  lemma UnionAssoc<K, V>(a: map<K, V>, b: map<K, V>, c: map<K, V>)
    ensures (a + b) + c == a + (b + c)
  {
  }

  /** The writes Render makes into one annotation bag, in the order it makes
      them, once the trait's app id has been defaulted. */
  method WriteDaprAnnotations(bag: Annotations, dapr: Trait) returns (annotations: Annotations)
    ensures annotations == Annotate(bag, dapr, dapr.appId)
  {
    ghost var base := map[EnabledKey := "true", AppIdKey := dapr.appId];
    ghost var port: Annotations := if dapr.appPort != 0 then map[AppPortKey := DecimalString(dapr.appPort)] else map[];
    ghost var config: Annotations := if dapr.config != "" then map[ConfigKey := dapr.config] else map[];
    ghost var protocol: Annotations := if dapr.protocol != "" then map[ProtocolKey := dapr.protocol] else map[];
    annotations := bag;
    annotations := annotations[EnabledKey := "true"];
    annotations := annotations[AppIdKey := dapr.appId];
    assert annotations == bag + base;
    if dapr.appPort != 0 {
      annotations := annotations[AppPortKey := DecimalString(dapr.appPort)];
      UpdateIsUnion(bag + base, AppPortKey, DecimalString(dapr.appPort));
    }
    assert annotations == bag + base + port;
    if dapr.config != "" {
      annotations := annotations[ConfigKey := dapr.config];
      UpdateIsUnion(bag + base + port, ConfigKey, dapr.config);
    }
    assert annotations == bag + base + port + config;
    if dapr.protocol != "" {
      annotations := annotations[ProtocolKey := dapr.protocol];
      UpdateIsUnion(bag + base + port + config, ProtocolKey, dapr.protocol);
    }
    assert annotations == bag + base + port + config + protocol;
    UnionAssoc(bag, base, port);
    UnionAssoc(bag, base + port, config);
    UnionAssoc(bag, base + port + config, protocol);
    assert AppId(dapr, dapr.appId) == dapr.appId;
  }

  /** On a bag without an app-port annotation, decoration adds one exactly
      when the port is non-zero, and it reads back as the port. */
  lemma AppPortAnnotation(bag: Annotations, t: Trait, workloadName: string)
    requires AppPortKey !in bag
    ensures AppPortKey in Annotate(bag, t, workloadName) <==> t.appPort != 0
    ensures t.appPort != 0 ==>
      var s := Annotate(bag, t, workloadName)[AppPortKey];
      WellFormed(s) && ParseDecimal(s) == t.appPort
  {
    AnnotateMeaning(bag, t, workloadName);
    if t.appPort != 0 {
      DecimalRoundTrip(t.appPort);
    }
  }

  /** Decorating twice is decorating once. */
  lemma AnnotateIdempotent(bag: Annotations, t: Trait, workloadName: string)
    ensures Annotate(Annotate(bag, t, workloadName), t, workloadName) == Annotate(bag, t, workloadName)
  {
    var d := DaprAnnotations(t, workloadName);
    UnionAssoc(bag, d, d);
    assert d + d == d;
  }

  // ---------------------------------------------------------------------------
  // Render

  /** A resource Render decorates: Kubernetes kind with a Deployment or an
      Unstructured payload. */
  predicate Decoratable(r: OutputResource) {
    r.kind == Kubernetes && (r.resource.Deployment? || r.resource.Unstructured?)
  }

  /** A resource at which Render stops with an error: Kubernetes kind whose
      payload is not a Kubernetes object. */
  predicate Halts(r: OutputResource) {
    r.kind == Kubernetes && r.resource.NotAnObject?
  }

  /** One resource as Render leaves it. */
  function Decorated(r: OutputResource, t: Trait, workloadName: string): OutputResource {
    if Decoratable(r) then
      r.(resource := StoreAnnotations(r.resource, Annotate(GetAnnotations(r.resource).value, t, workloadName)))
    else
      r
  }

  /** Decoration keeps the kind; it leaves alone every resource that is not a
      Kubernetes Deployment or Unstructured object; on those it keeps the
      payload's shape and everything outside its annotations, and the
      annotations read back are the decorated bag. */
  lemma DecoratedMeaning(r: OutputResource, t: Trait, workloadName: string)
    ensures Decorated(r, t, workloadName).kind == r.kind
    ensures !Decoratable(r) ==> Decorated(r, t, workloadName) == r
    ensures Decoratable(r) ==>
      var d := Decorated(r, t, workloadName);
      && Decoratable(d)
      && d.resource.Deployment? == r.resource.Deployment?
      && d.resource.rest == r.resource.rest
      && GetAnnotations(d.resource) == Some(Annotate(GetAnnotations(r.resource).value, t, workloadName))
  {
    if Decoratable(r) {
      StoreThenGet(r.resource, Annotate(GetAnnotations(r.resource).value, t, workloadName));
    }
  }

  /** The resource Decorate builds from the bag written with the defaulted
      trait is the decorated resource. */
  lemma DecoratedByWrites(r: OutputResource, annotations: Annotations, dapr: Trait, decoded: Trait,
                          workloadName: string)
    requires Decoratable(r)
    requires annotations == Annotate(GetAnnotations(r.resource).value, dapr, dapr.appId)
    requires dapr.appId == AppId(decoded, workloadName)
    requires dapr.appPort == decoded.appPort && dapr.config == decoded.config
    requires dapr.protocol == decoded.protocol
    ensures Decorated(r, decoded, workloadName) == r.(resource := StoreAnnotations(r.resource, annotations))
  {
    AnnotateByAppId(GetAnnotations(r.resource).value, dapr, dapr.appId, decoded, workloadName);
  }

  /** A resource decorated twice (two resources sharing one payload object, or
      two Dapr decorators in a chain) ends up as if decorated once. */
  lemma DecoratedIdempotent(r: OutputResource, t: Trait, workloadName: string)
    ensures Decorated(Decorated(r, t, workloadName), t, workloadName) == Decorated(r, t, workloadName)
  {
    if Decoratable(r) {
      var bag := GetAnnotations(r.resource).value;
      AnnotateIdempotent(bag, t, workloadName);
    }
  }

  /** The index of the first resource at which Render stops, or the length of
      the sequence when there is none. */
  function StopIndex(rs: seq<OutputResource>): (k: nat)
    ensures k <= |rs|
    ensures forall j :: 0 <= j < k ==> !Halts(rs[j])
    ensures k < |rs| ==> Halts(rs[k])
  {
    if rs == [] || Halts(rs[0]) then 0 else 1 + StopIndex(rs[1..])
  }

  /** The decorator's Render. The inner renderer's failure is passed through
      with its partial resources, without consulting the trait; an absent trait
      leaves the resources as they are with no error; a trait that could not be
      decoded leaves them as they are with the decode error. With the trait,
      the resources are decorated as Decorate says. */
  method Render(inner: RenderOutcome, lookup: TraitLookup, w: InstantiatedWorkload)
    returns (resources: seq<OutputResource>, err: Option<Error>)
    ensures |resources| == |inner.resources|
    ensures inner.err.Some? ==> resources == inner.resources && err == inner.err
    ensures inner.err.None? && lookup.Absent? ==> resources == inner.resources && err == None
    ensures inner.err.None? && lookup.Malformed? ==>
      resources == inner.resources && err == Some(lookup.error)
    ensures inner.err.None? && lookup.Present? ==>
      var stop := StopIndex(inner.resources);
      && (forall i :: 0 <= i < stop ==>
            resources[i] == Decorated(inner.resources[i], lookup.decoded, w.workload.name))
      && (forall i :: stop <= i < |resources| ==> resources[i] == inner.resources[i])
      && err == (if stop < |inner.resources| then Some(NonKubernetesPayload) else None)
  {
    resources, err := inner.resources, inner.err;
    if err.Some? {
      return;
    }
    match lookup
    case Absent =>
      return;
    case Malformed(e) =>
      err := Some(e);
      return;
    case Present(decoded) =>
      resources, err := Decorate(resources, decoded, w.workload.name);
  }

  /** The loop of Render once the trait is known: every resource before the
      first Kubernetes resource with a non-object payload is decorated (which
      changes only Kubernetes Deployments and Unstructured objects), that
      resource and all after it are left alone, and the error says whether
      there was one. The length and order of the sequence never change. */
  method Decorate(inner: seq<OutputResource>, decoded: Trait, workloadName: string)
    returns (resources: seq<OutputResource>, err: Option<Error>)
    ensures |resources| == |inner|
    ensures forall i :: 0 <= i < StopIndex(inner) ==> resources[i] == Decorated(inner[i], decoded, workloadName)
    ensures forall i :: StopIndex(inner) <= i < |resources| ==> resources[i] == inner[i]
    ensures err == if StopIndex(inner) < |inner| then Some(NonKubernetesPayload) else None
  {
    resources, err := inner, None;
    var dapr := decoded;
    var i := 0;
    while i < |resources|
      invariant 0 <= i <= |resources| == |inner|
      invariant i <= StopIndex(inner)
      invariant dapr.appPort == decoded.appPort && dapr.config == decoded.config
      invariant dapr.protocol == decoded.protocol
      invariant AppId(dapr, workloadName) == AppId(decoded, workloadName)
      invariant forall j :: 0 <= j < i ==> resources[j] == Decorated(inner[j], decoded, workloadName)
      invariant forall j :: i <= j < |resources| ==> resources[j] == inner[j]
      invariant err == None
    {
      var resource := resources[i];
      if resource.kind != Kubernetes {
        assert !Decoratable(resource);
        i := i + 1;
        continue;
      }
      if !resource.resource.IsObject() {
        assert Halts(inner[i]);
        assert StopIndex(inner) == i;
        err := Some(NonKubernetesPayload);
        return;
      }
      var found := GetAnnotations(resource.resource);
      if found.None? {
        assert !Decoratable(resource);
        i := i + 1;
        continue;
      }
      if dapr.appId == "" {
        dapr := dapr.(appId := workloadName);
      }
      var annotations := WriteDaprAnnotations(found.value, dapr);
      DecoratedByWrites(resource, annotations, dapr, decoded, workloadName);
      resources := resources[i := resource.(resource := StoreAnnotations(resource.resource, annotations))];
      i := i + 1;
    }
  }

  // ---------------------------------------------------------------------------
  // AllocateBindings

  /** The names of the declared bindings of the given kind. */
  function BindingsOfKind(decls: map<string, BindingDecl>, kind: string): set<string> {
    set n | n in decls && decls[n].kind == kind
  }

  /** The binding state the decorator synthesises for a Dapr binding. */
  function DaprBindingState(w: InstantiatedWorkload, name: string, kind: string, t: Trait): BindingState {
    BindingState(w.name, name, kind, map[AppIdProperty := StringValue(AppId(t, w.workload.name))])
  }

  /** The decorator's AllocateBindings, for the trait kind `traitKind` and the
      binding kind `bindingKind`. An inner failure is returned with a nil map.
      When the workload declares no binding of `bindingKind`, the inner map is
      returned as it is, whatever the trait lookup says. Otherwise a trait that
      could not be decoded, or no trait at all, fails the whole call with a nil
      map; and with the trait, every such binding gets a binding state for this
      workload instance whose only property is the app id, while every other
      entry of the inner map is kept. */
  method AllocateBindings(traitKind: string, bindingKind: string, inner: BindingsOutcome,
                          lookup: TraitLookup, w: InstantiatedWorkload)
    returns (bindings: Option<map<string, BindingState>>, err: Option<Error>)
    ensures bindings.Some? <==> err.None?
    ensures inner.err.Some? ==> bindings == None && err == inner.err
    ensures inner.err.None? && BindingsOfKind(w.workload.bindings, bindingKind) == {} ==>
      bindings == Some(inner.bindings) && err == None
    ensures inner.err.None? && BindingsOfKind(w.workload.bindings, bindingKind) != {} && lookup.Malformed? ==>
      bindings == None && err == Some(lookup.error)
    ensures inner.err.None? && BindingsOfKind(w.workload.bindings, bindingKind) != {} && lookup.Absent? ==>
      bindings == None && err == Some(TraitRequired(traitKind, bindingKind))
    ensures inner.err.None? && lookup.Present? ==>
      var names := BindingsOfKind(w.workload.bindings, bindingKind);
      && err == None
      && bindings.Some?
      && bindings.value.Keys == inner.bindings.Keys + names
      && (forall n :: n in names ==>
            bindings.value[n] == DaprBindingState(w, n, w.workload.bindings[n].kind, lookup.decoded))
      && (forall n :: n in inner.bindings && n !in names ==> bindings.value[n] == inner.bindings[n])
  {
    if inner.err.Some? {
      return None, inner.err;
    }
    var decls := w.workload.bindings;
    ghost var names := BindingsOfKind(decls, bindingKind);
    var result := inner.bindings;
    var remaining := decls.Keys;
    while remaining != {}
      invariant remaining <= decls.Keys
      invariant !lookup.Present? ==> names - remaining == {} && result == inner.bindings
      invariant lookup.Present? ==>
        && result.Keys == inner.bindings.Keys + (names - remaining)
        && (forall n :: n in names - remaining ==>
              result[n] == DaprBindingState(w, n, decls[n].kind, lookup.decoded))
        && (forall n :: n in inner.bindings && n !in names - remaining ==> result[n] == inner.bindings[n])
      decreases remaining
    {
      var name :| name in remaining;
      remaining := remaining - {name};
      var binding := decls[name];
      if binding.kind != bindingKind {
        assert name !in names;
        continue;
      }
      assert name in names;
      match lookup
      case Malformed(e) =>
        return None, Some(e);
      case Absent =>
        return None, Some(TraitRequired(traitKind, bindingKind));
      case Present(decoded) =>
        var dapr := decoded;
        if dapr.appId == "" {
          dapr := dapr.(appId := w.workload.name);
        }
        var state := BindingState(w.name, name, binding.kind, map[AppIdProperty := StringValue(dapr.appId)]);
        assert state == DaprBindingState(w, name, decls[name].kind, decoded);
        result := result[name := state];
    }
    if names == {} {
      assert result == inner.bindings;
    }
    return Some(result), None;
  }
}
